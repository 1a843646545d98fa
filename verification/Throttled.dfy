/**
 The authorization server with its three rate limiters in place: registrations, consent pages and
 wrong owner secrets, each counted per source as relay/oauth.py does, and forgotten on a restart.
 */
module Throttled {

  import opened Options
  import opened OAuth
  import opened OAuthStore
  import opened OAuthRuns
  import opened OAuthTokens
  import opened SplitDecision
  import opened OAuthRefused
  import SW = SlidingWindow

  const REGISTRATIONS: SW.Limits := SW.Limits(8, 900.0, 256)
  const PAGES: SW.Limits := SW.Limits(16, 60.0, 256)
  const WRONG_SECRETS: SW.Limits := SW.Limits(5, 900.0, 256)

  datatype Books = Books(registrations: SW.Book, pages: SW.Book, wrongSecrets: SW.Book)

  datatype Desk = Desk(h: Hall, books: Books)

  /** A move with the source it comes from; the limiter, if it has to, evicts the victim. */
  datatype Visit = Visit(m: Move, source: SW.Source, victim: SW.Source)

  function NewBooks(now: Time): Books {
    Books(SW.Opening(REGISTRATIONS, now), SW.Opening(PAGES, now), SW.Opening(WRONG_SECRETS, now))
  }

  // -------------------------------------------------------- who asks, and what is noted

  predicate Registering(m: Move) {
    m.Serve? && m.act.DoRegister?
  }

  /** A page is asked for, and the request passes the checks that come before the limiter. */
  predicate Asking(h: Hall, m: Move) {
    m.Serve? && m.act.DoBegin? && RequestError(h.st, m.act.q) == None
  }

  predicate Approving(m: Move) {
    m.Decide? && m.approve
  }

  /** A registration counts once the client is in the table, also if the save then fails. */
  ghost predicate CountsAsRegistration(h: Hall, m: Move) {
    Registering(m) && Saves(Perform(h.st, m.now, m.act).reply)
  }

  ghost predicate CountsAsPage(h: Hall, m: Move) {
    Asking(h, m) && Perform(h.st, m.now, m.act).reply.Consent?
  }

  predicate CountsAsWrongSecret(m: Move) {
    Approving(m) && !m.secretOk
  }

  /** The limiters answer what the move was told, and evict whom they may. */
  ghost predicate Admitted(d: Desk, v: Visit) {
    && Allowed(d.h, v.m)
    && (Registering(v.m) ==>
          && v.m.act.limited == !SW.AllowedBy(d.books.registrations, REGISTRATIONS, v.source, v.m.now)
          && SW.TryLegal(d.books.registrations, REGISTRATIONS, v.source, v.m.now, CountsAsRegistration(d.h, v.m), v.victim))
    && (Asking(d.h, v.m) ==>
          && v.m.act.limited == !SW.AllowedBy(d.books.pages, PAGES, v.source, v.m.now)
          && SW.TryLegal(d.books.pages, PAGES, v.source, v.m.now, CountsAsPage(d.h, v.m), v.victim))
    && (Approving(v.m) ==>
          && v.m.limited == !SW.AllowedBy(d.books.wrongSecrets, WRONG_SECRETS, v.source, v.m.now)
          && SW.TryLegal(d.books.wrongSecrets, WRONG_SECRETS, v.source, v.m.now, CountsAsWrongSecret(v.m), v.victim))
  }

  ghost function BooksAfter(d: Desk, v: Visit): Books {
    var b, now := d.books, v.m.now;
    if Restarts(v.m) then NewBooks(now)
    else
      Books(
        if Registering(v.m) then SW.Tried(b.registrations, REGISTRATIONS, v.source, now, CountsAsRegistration(d.h, v.m), v.victim)
        else b.registrations,
        if Asking(d.h, v.m) then SW.Tried(b.pages, PAGES, v.source, now, CountsAsPage(d.h, v.m), v.victim) else b.pages,
        if Approving(v.m) then SW.Tried(b.wrongSecrets, WRONG_SECRETS, v.source, now, CountsAsWrongSecret(v.m), v.victim)
        else b.wrongSecrets)
  }

  ghost predicate Visits(vs: seq<Visit>)
    decreases |vs|, 0
  {
    vs == [] || (Visits(vs[..|vs| - 1]) && Admitted(AtTheEnd(vs[..|vs| - 1]), vs[|vs| - 1]))
  }

  /** The desk after a sequence of visits from the very start. */
  ghost function AtTheEnd(vs: seq<Visit>): Desk
    requires Visits(vs)
    decreases |vs|, 1
  {
    if vs == [] then Desk(Door(), NewBooks(0.0))
    else
      var before, v := AtTheEnd(vs[..|vs| - 1]), vs[|vs| - 1];
      Desk(After(before.h, v.m), BooksAfter(before, v))
  }

  // ------------------------------------------------------------------------ the rates

  /** The books are in order about a source. */
  ghost predicate InOrder(d: Desk, k: SW.Source) {
    && SW.Orderly(d.books.registrations, REGISTRATIONS, k) && SW.Orderly(d.books.pages, PAGES, k)
    && SW.Orderly(d.books.wrongSecrets, WRONG_SECRETS, k)
  }

  lemma {:induction false} NewBooksInOrder(h: Hall, now: Time, k: SW.Source)
    ensures InOrder(Desk(h, NewBooks(now)), k)
  {
    SW.OrderlyAtFirst(REGISTRATIONS, now, k);
    SW.OrderlyAtFirst(PAGES, now, k);
    SW.OrderlyAtFirst(WRONG_SECRETS, now, k);
  }

  lemma {:induction false} VisitInOrder(d: Desk, v: Visit, k: SW.Source)
    requires Admitted(d, v) && InOrder(d, k)
    ensures InOrder(Desk(After(d.h, v.m), BooksAfter(d, v)), k)
  {
    var b, now := d.books, v.m.now;
    if Restarts(v.m) {
      NewBooksInOrder(After(d.h, v.m), now, k);
    } else if Registering(v.m) {
      SW.TriedIsOrderly(b.registrations, REGISTRATIONS, v.source, now, CountsAsRegistration(d.h, v.m), v.victim, k);
    } else if Asking(d.h, v.m) {
      SW.TriedIsOrderly(b.pages, PAGES, v.source, now, CountsAsPage(d.h, v.m), v.victim, k);
    } else if Approving(v.m) {
      SW.TriedIsOrderly(b.wrongSecrets, WRONG_SECRETS, v.source, now, CountsAsWrongSecret(v.m), v.victim, k);
    }
  }

  lemma {:induction false} VisitsInOrder(vs: seq<Visit>, k: SW.Source)
    requires Visits(vs)
    ensures InOrder(AtTheEnd(vs), k) && HallReachable(AtTheEnd(vs).h)
    decreases |vs|
  {
    if vs == [] {
      NewBooksInOrder(Door(), 0.0, k);
      assert Moves(Door(), []) && Finally(Door(), []) == Door();
    } else {
      var before := vs[..|vs| - 1];
      VisitsInOrder(before, k);
      VisitInOrder(AtTheEnd(before), vs[|vs| - 1], k);
      HallGoesOn(AtTheEnd(before).h, vs[|vs| - 1].m);
    }
  }

  /** Over any visits, however interleaved: since the last start, no closed window of their length
      saw more than 8 registrations, 16 consent pages or 5 wrong owner secrets of one source whose
      record was not evicted; and all that is reached this way is reached without the limiters. */
  lemma {:induction false} RatesHold(vs: seq<Visit>, k: SW.Source, from: Time)
    requires Visits(vs)
    ensures HallReachable(AtTheEnd(vs).h)
    ensures var b := AtTheEnd(vs).books;
            && (k !in b.registrations.lost ==> SW.CountIn(SW.Times(b.registrations.log, k), from, from + 900.0) <= 8)
            && (k !in b.pages.lost ==> SW.CountIn(SW.Times(b.pages.log, k), from, from + 60.0) <= 16)
            && (k !in b.wrongSecrets.lost ==> SW.CountIn(SW.Times(b.wrongSecrets.log, k), from, from + 900.0) <= 5)
  {
    VisitsInOrder(vs, k);
    BooksHold(AtTheEnd(vs), k, from);
  }

  lemma {:induction false} BooksHold(d: Desk, k: SW.Source, from: Time)
    requires InOrder(d, k)
    ensures var b := d.books;
            && (k !in b.registrations.lost ==> SW.CountIn(SW.Times(b.registrations.log, k), from, from + 900.0) <= 8)
            && (k !in b.pages.lost ==> SW.CountIn(SW.Times(b.pages.log, k), from, from + 60.0) <= 16)
            && (k !in b.wrongSecrets.lost ==> SW.CountIn(SW.Times(b.wrongSecrets.log, k), from, from + 900.0) <= 5)
  {
    var b := d.books;
    if k !in b.registrations.lost { SW.OrderlyMeans(b.registrations, REGISTRATIONS, k, from); }
    if k !in b.pages.lost { SW.OrderlyMeans(b.pages, PAGES, k, from); }
    if k !in b.wrongSecrets.lost { SW.OrderlyMeans(b.wrongSecrets, WRONG_SECRETS, k, from); }
  }

  lemma {:induction false} RegisteredAreCounted(h: Hall, m: Move)
    requires Allowed(h, m) && Registering(m)
    ensures CountsAsRegistration(h, m) <==> m.act.id in After(h, m).st.clients
    ensures CountsAsRegistration(h, m) ==> !m.act.limited
  {
    RegisterEnters(h.st, m.now, m.act.limited, m.act.body, m.act.gone, m.act.id, m.act.fault);
  }

  lemma {:induction false} RegisterEnters(st: State, now: Time, limited: bool, body: Registration, gone: set<Id>, id: Id, fault: Fault)
    requires id !in st.clients
    ensures var o := Register(st, now, limited, body, gone, id, fault);
            (Saves(o.reply) <==> id in o.st.clients) && (Saves(o.reply) ==> !limited)
  {
    var st1 := RemoveClients(st, gone);
    assert id !in st1.clients;
    var st2 := WithClient(st1, body, id, now);
    assert Save(st2, now, fault).clients == st2.clients;
    assert id in st2.clients;
  }

  /** The logs say what happened: a client entered in the table, a page opened, and a secret that
      was compared and found wrong are one line each, of that source and time, and nothing else is. */
  lemma {:induction false} LogsAreTrue(d: Desk, v: Visit)
    requires Admitted(d, v) && !Restarts(v.m)
    ensures var b, next, e := d.books, BooksAfter(d, v), [SW.Event(v.source, v.m.now)];
            && next.registrations.log
               == b.registrations.log + (if Registering(v.m) && v.m.act.id in After(d.h, v.m).st.clients then e else [])
            && next.pages.log
               == b.pages.log + (if v.m.Serve? && v.m.act.DoBegin? && Perform(d.h.st, v.m.now, v.m.act).reply.Consent? then e else [])
            && next.wrongSecrets.log
               == b.wrongSecrets.log + (if v.m.Decide? && v.m.approve && !v.m.limited && !v.m.secretOk then e else [])
  {
    var b := d.books;
    assert b.registrations.log + [] == b.registrations.log && b.pages.log + [] == b.pages.log
        && b.wrongSecrets.log + [] == b.wrongSecrets.log;
    if Registering(v.m) { RegisteredAreCounted(d.h, v.m); }
  }

  /** A source whose record was not evicted is let through as long as the log of the last window has
      fewer than 8 registrations, 16 pages or 5 wrong secrets of it, and refused from then on. */
  lemma {:induction false} LimitedExactly(vs: seq<Visit>, v: Visit)
    requires Visits(vs) && Admitted(AtTheEnd(vs), v)
    ensures var b, k, now := AtTheEnd(vs).books, v.source, v.m.now;
            && (Registering(v.m) && k !in b.registrations.lost ==>
                  (v.m.act.limited <==> SW.CountSince(SW.Times(b.registrations.log, k), now - 900.0) >= 8))
            && (Asking(AtTheEnd(vs).h, v.m) && k !in b.pages.lost ==>
                  (v.m.act.limited <==> SW.CountSince(SW.Times(b.pages.log, k), now - 60.0) >= 16))
            && (Approving(v.m) && k !in b.wrongSecrets.lost ==>
                  (v.m.limited <==> SW.CountSince(SW.Times(b.wrongSecrets.log, k), now - 900.0) >= 5))
  {
    VisitsInOrder(vs, v.source);
    var b, now := AtTheEnd(vs).books, v.m.now;
    if Registering(v.m) { SW.RefusesByTheLog(b.registrations, REGISTRATIONS, v.source, now); }
    if Asking(AtTheEnd(vs).h, v.m) { SW.RefusesByTheLog(b.pages, PAGES, v.source, now); }
    if Approving(v.m) { SW.RefusesByTheLog(b.wrongSecrets, WRONG_SECRETS, v.source, now); }
  }
}
