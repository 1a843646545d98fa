/**
 The single-use dispatch registry of tools/skills-contract.py, in both of the forms the
 source gives it: one marker file per token under the host replay directory, and the
 in-memory store and reservation table.

 A token is a dispatch id that passed `_safe_dispatch_token`; a binding is an effect
 digest together with an executor attempt that passed `_effect_binding`.
 */
module DispatchRegistry {

  import opened Options

  /** What one marker file holds.  `Torn` is a file whose content does not parse: created
      or truncated but not yet written, or left so by a writer that died. */
  datatype Marker<+B> =
    | Torn
    | Reserved(owner: B)
    | ConsumedBy(owner: B)
    | ConsumedByNobody

  datatype Answer =
    | Ok | Replay | NewlyReserved | OwnedReserved | OwnedConsumed | Conflict | Unavailable

  datatype Operation<+T, +B> =
    | Consume(token: T)
    | Reserve(token: T, owner: B)
    | Finalize(token: T, owner: B)

  /** How the host behaves during a call: the replay directory can be missing; a write that
      follows an exclusive create or a truncation can fail or be cut short; and a sync or a
      close can fail after the record was written, so that only the answer is lost. */
  datatype Weather = Up | Down | WriteLost | AnswerLost

  // ---------------------------------------------------------------- marker files

  datatype MarkerFiles<T, B> = MarkerFiles(legacy: set<T>, markers: map<T, Marker<B>>)

  predicate Free<T, B>(files: MarkerFiles<T, B>, t: T) {
    t !in files.legacy && t !in files.markers
  }

  function Written<T, B>(files: MarkerFiles<T, B>, t: T, m: Marker<B>, w: Weather): MarkerFiles<T, B> {
    files.(markers := files.markers[t := if w == WriteLost then Torn else m])
  }

  /** The answer and the files after one call. */
  function OnMarkers<T, B(==)>(files: MarkerFiles<T, B>, op: Operation<T, B>, w: Weather): (r: (MarkerFiles<T, B>, Answer))
  {
    if w == Down then (files, Unavailable) else
    var t := op.token;
    var lost := w == WriteLost || w == AnswerLost;
    match op
    case Consume(_) =>
      if !Free(files, t) then (files, Replay)
      else (Written(files, t, ConsumedByNobody, w), if lost then Unavailable else Ok)
    case Reserve(_, b) =>
      if t in files.legacy then (files, Conflict)
      else if t !in files.markers then
        (Written(files, t, Reserved(b), w), if lost then Unavailable else NewlyReserved)
      else if files.markers[t] == ConsumedBy(b) then (files, OwnedConsumed)
      else if files.markers[t] == Reserved(b) then (files, OwnedReserved)
      else (files, Conflict)
    case Finalize(_, b) =>
      if t !in files.markers then (files, Conflict)
      else if files.markers[t] == ConsumedBy(b) then (files, Ok)
      else if files.markers[t] == Reserved(b) then
        (Written(files, t, ConsumedBy(b), w), if lost then Unavailable else Ok)
      else (files, Conflict)
  }

  /** The registry as the host directory holds it.  Every method follows the order of the
      file operations, so a lost write leaves the torn file behind. */
  class MarkerRegistry<T(==), B(==)> {
    const legacy: set<T>
    var markers: map<T, Marker<B>>

    constructor (legacy: set<T>)
      ensures Files() == MarkerFiles(legacy, map[])
    {
      this.legacy := legacy;
      markers := map[];
    }

    function Files(): MarkerFiles<T, B>
      reads this
    {
      MarkerFiles(legacy, markers)
    }

    method ConsumeOnce(t: T, w: Weather) returns (a: Answer)
      modifies this
      ensures (Files(), a) == OnMarkers(old(Files()), Consume(t), w)
    {
      if w == Down { return Unavailable; }
      if t in legacy || t in markers { return Replay; }
      markers := markers[t := Torn];              // exclusive create
      if w == WriteLost { return Unavailable; }
      markers := markers[t := ConsumedByNobody];
      assert markers == old(markers)[t := ConsumedByNobody];
      a := if w == AnswerLost then Unavailable else Ok;
    }

    method Reserve(t: T, b: B, w: Weather) returns (a: Answer)
      modifies this
      ensures (Files(), a) == OnMarkers(old(Files()), Operation.Reserve(t, b), w)
    {
      if w == Down { return Unavailable; }
      if t in legacy { return Conflict; }
      if t in markers {                           // exclusive create fails: read the record
        match markers[t] {
          case ConsumedBy(c) => return if c == b then OwnedConsumed else Conflict;
          case Reserved(c) => return if c == b then OwnedReserved else Conflict;
          case _ => return Conflict;
        }
      }
      markers := markers[t := Torn];
      if w == WriteLost { return Unavailable; }
      markers := markers[t := Reserved(b)];
      assert markers == old(markers)[t := Reserved(b)];
      a := if w == AnswerLost then Unavailable else NewlyReserved;
    }

    method Finalize(t: T, b: B, w: Weather) returns (a: Answer)
      modifies this
      ensures (Files(), a) == OnMarkers(old(Files()), Operation.Finalize(t, b), w)
    {
      if w == Down { return Unavailable; }
      if t !in markers { return Conflict; }
      match markers[t] {
        case ConsumedBy(c) => return if c == b then Ok else Conflict;
        case Reserved(c) => if c != b { return Conflict; }
        case _ => return Conflict;
      }
      markers := markers[t := Torn];              // truncate
      if w == WriteLost { return Unavailable; }
      markers := markers[t := ConsumedBy(b)];
      assert markers == old(markers)[t := ConsumedBy(b)];
      a := if w == AnswerLost then Unavailable else Ok;     // sync failed
    }
  }

  // ------------------------------------------------------------- in-memory registry

  datatype Row<+B> = Row(consumed: bool, owner: Option<B>)

  datatype Memory<T, B> = Memory(store: set<T>, rows: map<T, Row<B>>)

  function OnMemory<T, B(==)>(mem: Memory<T, B>, op: Operation<T, B>, w: Weather): (Memory<T, B>, Answer)
  {
    if w == Down then (mem, Unavailable) else
    var t := op.token;
    match op
    case Consume(_) =>
      if t in mem.store || t in mem.rows then (mem, Replay)
      else (Memory(mem.store + {t}, mem.rows[t := Row(true, None)]), Ok)
    case Reserve(_, b) =>
      if t in mem.store then
        (mem, if t in mem.rows && mem.rows[t] == Row(true, Some(b)) then OwnedConsumed else Conflict)
      else if t !in mem.rows then (mem.(rows := mem.rows[t := Row(false, Some(b))]), NewlyReserved)
      else if mem.rows[t].owner == Some(b) then
        (mem, if mem.rows[t].consumed then OwnedConsumed else OwnedReserved)
      else (mem, Conflict)
    case Finalize(_, b) =>
      if t !in mem.rows || mem.rows[t].owner != Some(b) then (mem, Conflict)
      else if t in mem.store && !mem.rows[t].consumed then (mem, Conflict)
      else (Memory(mem.store + {t}, mem.rows[t := Row(true, Some(b))]), Ok)
  }

  class MemoryRegistry<T(==), B(==)> {
    var store: set<T>
    var rows: map<T, Row<B>>

    function Contents(): Memory<T, B>
      reads this
    {
      Memory(store, rows)
    }

    method ConsumeOnce(t: T, w: Weather) returns (a: Answer)
      modifies this
      ensures (Contents(), a) == OnMemory(old(Contents()), Consume(t), w)
    {
      if w == Down { return Unavailable; }
      if t in store || t in rows { return Replay; }
      store := store + {t};
      rows := rows[t := Row(true, None)];
      a := Ok;
    }

    method Reserve(t: T, b: B, w: Weather) returns (a: Answer)
      modifies this
      ensures (Contents(), a) == OnMemory(old(Contents()), Operation.Reserve(t, b), w)
    {
      if w == Down { return Unavailable; }
      if t in store {
        return if t in rows && rows[t].consumed && rows[t].owner == Some(b) then OwnedConsumed else Conflict;
      }
      if t !in rows {
        rows := rows[t := Row(false, Some(b))];
        return NewlyReserved;
      }
      if rows[t].owner == Some(b) {
        return if rows[t].consumed then OwnedConsumed else OwnedReserved;
      }
      a := Conflict;
    }

    method Finalize(t: T, b: B, w: Weather) returns (a: Answer)
      modifies this
      ensures (Contents(), a) == OnMemory(old(Contents()), Operation.Finalize(t, b), w)
    {
      if w == Down { return Unavailable; }
      if t !in rows || rows[t].owner != Some(b) { return Conflict; }
      if t in store && !rows[t].consumed { return Conflict; }
      rows := rows[t := rows[t].(consumed := true)];
      store := store + {t};
      a := Ok;
    }
  }

  // --------------------------------------------- the files refine the in-memory form

  /** One token looks the same in both registries.  A legacy marker and a torn file are
      both a token that is spent and owned by nobody. */
  ghost predicate SameToken<T, B>(files: MarkerFiles<T, B>, mem: Memory<T, B>, t: T) {
    && (t in files.legacy ==> t !in files.markers)
    && (Free(files, t) <==> t !in mem.store && t !in mem.rows)
    && (t in files.markers ==>
          match files.markers[t]
          case Reserved(b) => t !in mem.store && t in mem.rows && mem.rows[t] == Row(false, Some(b))
          case ConsumedBy(b) => t in mem.store && t in mem.rows && mem.rows[t] == Row(true, Some(b))
          case _ => true)
    && ((t in files.legacy || (t in files.markers && (files.markers[t].Torn? || files.markers[t].ConsumedByNobody?))) ==>
          t in mem.store && (t in mem.rows ==> mem.rows[t] == Row(true, None)))
  }

  ghost predicate Same<T(!new), B>(files: MarkerFiles<T, B>, mem: Memory<T, B>) {
    forall t: T :: SameToken(files, mem, t)
  }

  lemma {:induction false} SameAnswer<T(!new), B>(files: MarkerFiles<T, B>, mem: Memory<T, B>, op: Operation<T, B>, w: Weather)
    requires Same(files, mem) && (w == Up || w == Down)
    ensures OnMarkers(files, op, w).1 == OnMemory(mem, op, w).1
    ensures Same(OnMarkers(files, op, w).0, OnMemory(mem, op, w).0)
  {
    assert SameToken(files, mem, op.token);
    var files', mem' := OnMarkers(files, op, w).0, OnMemory(mem, op, w).0;
    forall t: T
      ensures SameToken(files', mem', t)
    {
      assert SameToken(files, mem, t);
    }
  }

  /** A lost answer loses nothing else: the files are as if the call had answered. */
  lemma {:induction false} LostAnswerKeepsRecord<T(!new), B>(files: MarkerFiles<T, B>, mem: Memory<T, B>, op: Operation<T, B>)
    requires Same(files, mem)
    ensures OnMarkers(files, op, AnswerLost).0 == OnMarkers(files, op, Up).0
    ensures Same(OnMarkers(files, op, AnswerLost).0, OnMemory(mem, op, Up).0)
    ensures OnMarkers(files, op, AnswerLost).1 in {OnMarkers(files, op, Up).1, Unavailable}
  {
    SameAnswer(files, mem, op, Up);
  }

  function MarkerAnswers<T, B(==)>(files: MarkerFiles<T, B>, calls: seq<(Operation<T, B>, Weather)>): seq<Answer>
    decreases |calls|
  {
    if calls == [] then []
    else
      var (files', a) := OnMarkers(files, calls[0].0, calls[0].1);
      [a] + MarkerAnswers(files', calls[1..])
  }

  function MemoryAnswers<T, B(==)>(mem: Memory<T, B>, calls: seq<(Operation<T, B>, Weather)>): seq<Answer>
    decreases |calls|
  {
    if calls == [] then []
    else
      var (mem', a) := OnMemory(mem, calls[0].0, calls[0].1);
      [a] + MemoryAnswers(mem', calls[1..])
  }

  /** Over every call sequence in which no write and no answer is lost, the two registries answer alike. */
  lemma {:induction false} MarkersRefineMemory<T(!new), B>(
    files: MarkerFiles<T, B>, mem: Memory<T, B>, calls: seq<(Operation<T, B>, Weather)>)
    requires Same(files, mem)
    requires forall i :: 0 <= i < |calls| ==> calls[i].1 in {Up, Down}
    ensures MarkerAnswers(files, calls) == MemoryAnswers(mem, calls)
    decreases |calls|
  {
    if calls != [] {
      var op, w := calls[0].0, calls[0].1;
      SameAnswer(files, mem, op, w);
      MarkersRefineMemory(OnMarkers(files, op, w).0, OnMemory(mem, op, w).0, calls[1..]);
    }
  }

  /** The same from the start: an empty directory beside an empty table, the legacy
      markers being exactly the tokens the store already lists. */
  lemma {:induction false} RegistriesAgreeFromStart<T(!new), B>(legacy: set<T>, calls: seq<(Operation<T, B>, Weather)>)
    requires forall i :: 0 <= i < |calls| ==> calls[i].1 in {Up, Down}
    ensures MarkerAnswers(MarkerFiles(legacy, map[]), calls) == MemoryAnswers(Memory(legacy, map[]), calls)
  {
    MarkersRefineMemory(MarkerFiles(legacy, map[]), Memory(legacy, map[]), calls);
  }

  // ------------------------------------------------------ what no run of calls undoes

  /** A token never gets back to an earlier state, whatever the weather: a reservation
      keeps its owner until that owner consumes it or its file tears, and consumed or
      torn is final. */
  ghost predicate NoWayBack<B>(m: Marker<B>, m': Marker<B>) {
    match m
    case Reserved(b) => m' == Reserved(b) || m' == ConsumedBy(b) || m' == Torn
    case _ => m' == m
  }

  ghost predicate Onward<T, B>(files: MarkerFiles<T, B>, files': MarkerFiles<T, B>) {
    && files'.legacy == files.legacy
    && forall t :: t in files.markers ==> t in files'.markers && NoWayBack(files.markers[t], files'.markers[t])
  }

  function AfterCalls<T, B(==)>(files: MarkerFiles<T, B>, calls: seq<(Operation<T, B>, Weather)>): MarkerFiles<T, B>
    decreases |calls|
  {
    if calls == [] then files
    else AfterCalls(OnMarkers(files, calls[0].0, calls[0].1).0, calls[1..])
  }

  lemma {:induction false} CallsOnlyMoveOnward<T, B>(files: MarkerFiles<T, B>, calls: seq<(Operation<T, B>, Weather)>)
    ensures Onward(files, AfterCalls(files, calls))
    decreases |calls|
  {
    if calls != [] {
      var files' := OnMarkers(files, calls[0].0, calls[0].1).0;
      assert Onward(files, files');
      CallsOnlyMoveOnward(files', calls[1..]);
    }
  }

  /** Once a token is taken, whether whole or torn, no later call reserves or consumes it
      anew; and only the reservation's owner ever finalizes it. */
  lemma {:induction false} TakenForGood<T, B>(files: MarkerFiles<T, B>, calls: seq<(Operation<T, B>, Weather)>, op: Operation<T, B>)
    requires op.token in files.markers
    ensures var a := OnMarkers(AfterCalls(files, calls), op, Up).1;
            && a != NewlyReserved
            && (op.Consume? ==> a == Replay)
            && (a in {Ok, OwnedReserved, OwnedConsumed} ==>
                  files.markers[op.token] in {Reserved(op.owner), ConsumedBy(op.owner)})
  {
    CallsOnlyMoveOnward(files, calls);
  }

  // ------------------------------------------------------------ what each answer means

  /** Taken for this owner, or by nobody in particular. */
  ghost predicate Granted(op: Operation, a: Answer) {
    (op.Consume? && a == Ok) || (op.Reserve? && a == NewlyReserved)
  }

  /** One call while the directory is there and nothing is lost: when each answer is given. */
  lemma {:induction false} AnswersMean<T, B>(files: MarkerFiles<T, B>, op: Operation<T, B>)
    ensures var a, t := OnMarkers(files, op, Up).1, op.token;
            var unused := t !in files.legacy && t !in files.markers;
            && (op.Consume? ==> a == if unused then Ok else Replay)
            && (op.Reserve? ==>
                  && (a == NewlyReserved <==> unused)
                  && (a == OwnedReserved <==> t !in files.legacy && t in files.markers && files.markers[t] == Reserved(op.owner))
                  && (a == OwnedConsumed <==> t !in files.legacy && t in files.markers && files.markers[t] == ConsumedBy(op.owner))
                  && a in {NewlyReserved, OwnedReserved, OwnedConsumed, Conflict})
            && (op.Finalize? ==>
                  && (a == Ok <==> t in files.markers && files.markers[t] in {Reserved(op.owner), ConsumedBy(op.owner)})
                  && a in {Ok, Conflict})
  {
  }

  /** What one call leaves: only the file of its token can change; a grant writes it, a confirmed
      finalization consumes it, a lost write tears it, and any other answer leaves it alone. */
  lemma {:induction false} CallLeaves<T, B>(files: MarkerFiles<T, B>, op: Operation<T, B>, w: Weather)
    ensures var (next, a) := OnMarkers(files, op, w);
            && next.legacy == files.legacy
            && (forall t :: t in next.markers && t != op.token ==> t in files.markers && next.markers[t] == files.markers[t])
            && (forall t :: t in files.markers ==> t in next.markers)
            && (w == Down ==> next == files && a == Unavailable)
            && (op.Consume? && a == Ok ==> op.token in next.markers && next.markers[op.token] == ConsumedByNobody)
            && (op.Reserve? && a in {NewlyReserved, OwnedReserved} ==>
                  op.token in next.markers && next.markers[op.token] == Reserved(op.owner))
            && (op.Finalize? && a == Ok ==> op.token in next.markers && next.markers[op.token] == ConsumedBy(op.owner))
            && (w in {Up, Down} && a in {Replay, Conflict, OwnedReserved, OwnedConsumed, Unavailable} ==> next == files)
            && (w == WriteLost && next != files ==> op.token in next.markers && next.markers[op.token] == Torn && a == Unavailable)
            && (w == WriteLost && a in {Replay, Conflict, OwnedReserved, OwnedConsumed, Ok} ==> next == files)
  {
  }

  /** A write is lost exactly on a free token that is consumed or reserved, or on a reservation that
      its owner finalizes; the token is then torn, and so taken. */
  lemma {:induction false} LostWriteTears<T, B>(files: MarkerFiles<T, B>, op: Operation<T, B>)
    ensures var (next, a), t := OnMarkers(files, op, WriteLost), op.token;
            t in next.markers && next.markers[t] == Torn <==>
              || (t in files.markers && files.markers[t] == Torn)
              || (!op.Finalize? && t !in files.legacy && t !in files.markers)
              || (op.Finalize? && t in files.markers && files.markers[t] == Reserved(op.owner))
  {
  }

  /** However the directory behaves, a call that granted a token, or lost its write or answer doing
      so, leaves it taken: no later call is granted it. */
  lemma {:induction false} GrantedAtMostOnce<T, B>(files: MarkerFiles<T, B>, first: Operation<T, B>, w: Weather,
                                                   calls: seq<(Operation<T, B>, Weather)>, later: Operation<T, B>, w': Weather)
    requires later.token == first.token && !first.Finalize?
    requires first.token in OnMarkers(files, first, w).0.markers
    ensures Granted(first, OnMarkers(files, first, w).1) ==> first.token in OnMarkers(files, first, w).0.markers
    ensures !Granted(later, OnMarkers(AfterCalls(OnMarkers(files, first, w).0, calls), later, w').1)
  {
    CallsOnlyMoveOnward(OnMarkers(files, first, w).0, calls);
  }

  /** So in any sequence of calls, in any weather, a token is granted at most once. */
  lemma {:induction false} OneGrantPerToken<T, B>(files: MarkerFiles<T, B>, calls: seq<(Operation<T, B>, Weather)>, i: nat, j: nat)
    requires i < j < |calls| && calls[i].0.token == calls[j].0.token
    ensures |MarkerAnswers(files, calls)| == |calls|
    ensures !(Granted(calls[i].0, MarkerAnswers(files, calls)[i]) && Granted(calls[j].0, MarkerAnswers(files, calls)[j]))
    decreases |calls|
  {
    var (next, a) := OnMarkers(files, calls[0].0, calls[0].1);
    AnswersAreMany(files, calls);
    if i > 0 {
      OneGrantPerToken(next, calls[1..], i - 1, j - 1);
    } else {
      AnswerAt(next, calls[1..], j - 1);
      if Granted(calls[0].0, a) {
        CallLeaves(files, calls[0].0, calls[0].1);
        GrantedAtMostOnce(files, calls[0].0, calls[0].1, calls[1..j], calls[j].0, calls[j].1);
        assert calls[1..][..j - 1] == calls[1..j];
      }
    }
  }

  lemma {:induction false} AnswersAreMany<T, B>(files: MarkerFiles<T, B>, calls: seq<(Operation<T, B>, Weather)>)
    ensures |MarkerAnswers(files, calls)| == |calls|
    decreases |calls|
  {
    if calls != [] { AnswersAreMany(OnMarkers(files, calls[0].0, calls[0].1).0, calls[1..]); }
  }

  lemma {:induction false} AnswerAt<T, B>(files: MarkerFiles<T, B>, calls: seq<(Operation<T, B>, Weather)>, j: nat)
    requires j < |calls|
    ensures |MarkerAnswers(files, calls)| == |calls|
    ensures MarkerAnswers(files, calls)[j] == OnMarkers(AfterCalls(files, calls[..j]), calls[j].0, calls[j].1).1
    decreases |calls|
  {
    AnswersAreMany(files, calls);
    if j > 0 {
      AnswerAt(OnMarkers(files, calls[0].0, calls[0].1).0, calls[1..], j - 1);
      assert calls[..j][1..] == calls[1..][..j - 1];
    } else {
      assert calls[..0] == [];
    }
  }
}
