/**
 The state machine: committed entries and installed snapshots are applied to a key-value map, retries of a
 client's write are recognised by its sequence numbers, and waiting clients are answered.
 */
module StateMachine {

  import opened Wrappers
  import opened Bytes
  import opened RaftTypes

  /** The payload of a log entry. */
  datatype Write = Write(op: string, key: Key, value: Bytes, clientId: string, seqNum: nat)

  type Data = map<Key, Bytes>

  /** How entries and snapshots are read; the formats are not part of this model. */
  type Parser = Bytes -> Option<Write>
  type Decoder = Bytes -> Option<Data>

  datatype Machine = Machine(data: Data, lastApplied: nat, lastSeq: map<string, nat>)

  const BLANK := Machine(map[], 0, map[])

  predicate Known(w: Write) { w.op == "put" || w.op == "delete" }

  function Perform(d: Data, w: Write): Data {
    if w.op == "put" then d[w.key := w.value] else if w.op == "delete" then d - {w.key} else d
  }

  /** The table has this write, or a later one of the same client, as applied. */
  predicate IsRetry(lastSeq: map<string, nat>, w: Write) {
    w.clientId != "" && w.clientId in lastSeq && w.seqNum <= lastSeq[w.clientId]
  }

  function Remember(lastSeq: map<string, nat>, w: Write): map<string, nat> {
    if w.clientId != "" && Known(w) then lastSeq[w.clientId := w.seqNum] else lastSeq
  }

  function ApplyEntry(parse: Parser, s: Machine, e: Entry): Machine {
    if e.index <= s.lastApplied then s else
    match parse(e.data)
    case None => s.(lastApplied := e.index)
    case Some(w) =>
      if IsRetry(s.lastSeq, w) then s.(lastApplied := e.index)
      else Machine(Perform(s.data, w), e.index, Remember(s.lastSeq, w))
  }

  function ApplySnapshot(decode: Decoder, s: Machine, data: Bytes, index: nat): Machine {
    if index <= s.lastApplied then s else
    match decode(data)
    case None => s
    case Some(d) => Machine(d, index, map[])
  }

  function Dispatch(parse: Parser, decode: Decoder, s: Machine, m: ApplyMsg): Machine {
    match m
    case Command(e) => ApplyEntry(parse, s, e)
    case Snapshot(data, index, _) => ApplySnapshot(decode, s, data, index)
  }

  // ---------------------------------------------------------------- the object

  datatype Result = Ok | Failed(reason: string)

  /** The client that waited for `index` since `term` was told `result`. */
  datatype Answer = Answer(index: nat, term: nat, result: Result)

  const SUPERSEDED := Failed("entry superseded by an installed snapshot")
  const CORRUPT := Failed("corrupt log entry")
  const UNKNOWN_OP := Failed("unknown op")

  /** What the client waiting for the entry is told. */
  function ResultOf(parse: Parser, s: Machine, e: Entry): Result {
    if e.index <= s.lastApplied then Ok else
    match parse(e.data)
    case None => CORRUPT
    case Some(w) => if IsRetry(s.lastSeq, w) || Known(w) then Ok else UNKNOWN_OP
  }

  /** The client waiting for the entry's index is answered, whatever term it proposed its write in. */
  function AnswerTo(pending: map<nat, nat>, index: nat, result: Result): multiset<Answer> {
    if index in pending then multiset{Answer(index, pending[index], result)} else multiset{}
  }

  /** The machine, the clients waiting for an index (and since which term), and the answers given. */
  datatype Desk = Desk(machine: Machine, pending: map<nat, nat>, answered: multiset<Answer>)

  datatype Event = Proposed(index: nat, term: nat) | Delivered(msg: ApplyMsg)

  ghost function Serve(parse: Parser, decode: Decoder, d: Desk, ev: Event): Desk {
    match ev
    case Proposed(index, term) => d.(pending := d.pending[index := term])
    case Delivered(Command(e)) =>
      Desk(ApplyEntry(parse, d.machine, e), d.pending - {e.index},
           d.answered + AnswerTo(d.pending, e.index, ResultOf(parse, d.machine, e)))
    case Delivered(Snapshot(data, index, _)) =>
      if Loads(decode, d.machine, data, index) then
        Desk(ApplySnapshot(decode, d.machine, data, index), Above(d.pending, index),
             d.answered + Superseded(d.pending, index))
      else d
  }

  /** No waiter at or below the snapshot will be notified any more; each is told so. */
  method DropCovered(pending: map<nat, nat>, index: nat) returns (kept: map<nat, nat>, told: multiset<Answer>)
    ensures kept == Above(pending, index) && told == Superseded(pending, index)
  {
    kept, told := pending, multiset{};
    var rest, done := pending.Keys, {};
    while rest != {}
      invariant rest + done == pending.Keys && rest !! done
      invariant kept == Unless(pending, done, index) && told == multiset(SupersededOf(pending, done, index))
      decreases rest
    {
      var i :| i in rest;
      SupersededStep(pending, done, i, index);
      rest, done := rest - {i}, done + {i};
      if i <= index {
        told := told + multiset{Answer(i, pending[i], SUPERSEDED)};
        kept := kept - {i};
      }
    }
    assert done == pending.Keys;
  }

  /** The waiters left when those of `done` at or below the index are gone. */
  ghost function Unless(pending: map<nat, nat>, done: set<nat>, index: nat): map<nat, nat> {
    pending - (set i | i in done && i <= index)
  }

  class Server {
    const parse: Parser
    const decode: Decoder
    var data: Data
    var lastApplied: nat
    var lastSeq: map<string, nat>
    var pending: map<nat, nat>           // index to the term the write was proposed in
    var answered: multiset<Answer>

    constructor (parse: Parser, decode: Decoder, data: Data)
      ensures this.parse == parse && this.decode == decode
      ensures State() == Desk(Machine(data, 0, map[]), map[], multiset{})
    {
      this.parse, this.decode := parse, decode;
      this.data, lastApplied, lastSeq, pending, answered := data, 0, map[], map[], multiset{};
    }

    ghost function State(): Desk
      reads this
    {
      Desk(Machine(data, lastApplied, lastSeq), pending, answered)
    }

    method NotifyPending(index: nat, result: Result)
      modifies this`pending, this`answered
      ensures pending == old(pending) - {index}
      ensures answered == old(answered) + AnswerTo(old(pending), index, result)
    {
      if index !in pending {
        return;
      }
      var term := pending[index];
      pending := pending - {index};
      answered := answered + multiset{Answer(index, term, result)};
    }

    /** Executes the entry and says what to tell the client waiting for it. */
    method Execute(e: Entry) returns (result: Result)
      modifies this`data, this`lastApplied, this`lastSeq
      ensures State().machine == ApplyEntry(parse, old(State()).machine, e)
      ensures result == ResultOf(parse, old(State()).machine, e)
    {
      if e.index <= lastApplied {
        return Ok;
      }
      var cmd := parse(e.data);
      if cmd.None? {
        lastApplied := e.index;
        return CORRUPT;
      }
      var w := cmd.value;
      if w.clientId != "" && w.clientId in lastSeq && w.seqNum <= lastSeq[w.clientId] {
        lastApplied := e.index;
        return Ok;
      }
      result := Ok;
      if w.op == "put" {
        data := data[w.key := w.value];
      } else if w.op == "delete" {
        data := data - {w.key};
      } else {
        result := UNKNOWN_OP;
      }
      if w.clientId != "" && result == Ok {
        lastSeq := lastSeq[w.clientId := w.seqNum];
      }
      lastApplied := e.index;
    }

    method Apply(e: Entry)
      modifies this
      ensures State() == Serve(parse, decode, old(State()), Delivered(Command(e)))
    {
      var result := Execute(e);
      NotifyPending(e.index, result);
    }

    method InstallSnapshot(bytes: Bytes, index: nat, term: nat)
      modifies this
      ensures State() == Serve(parse, decode, old(State()), Delivered(Snapshot(bytes, index, term)))
    {
      if index <= lastApplied {
        return;
      }
      var loaded := decode(bytes);
      if loaded.None? {
        return;
      }
      data := loaded.value;
      lastSeq := map[];
      var kept, told := DropCovered(pending, index);
      pending, answered := kept, answered + told;
      lastApplied := index;
    }

    method HandOver(msg: ApplyMsg)
      modifies this
      ensures State() == Serve(parse, decode, old(State()), Delivered(msg))
    {
      match msg
      case Command(e) => Apply(e);
      case Snapshot(bytes, index, term) => InstallSnapshot(bytes, index, term);
    }

    /** ProposeWrite got the write into the log of a leader; its client waits for that index. */
    method Register(index: nat, term: nat)
      modifies this`pending
      ensures State() == Serve(parse, decode, old(State()), Proposed(index, term))
    {
      pending := pending[index := term];
    }
  }

  predicate Loads(decode: Decoder, s: Machine, bytes: Bytes, index: nat) {
    index > s.lastApplied && decode(bytes).Some?
  }

  ghost function Above(pending: map<nat, nat>, index: nat): map<nat, nat> {
    pending - (set i | i in pending && i <= index)
  }

  ghost function SupersededAnswer(pending: map<nat, nat>, i: nat): Answer
    requires i in pending
  {
    Answer(i, pending[i], SUPERSEDED)
  }

  /** The answers to those of the given waiters that are at or below a snapshot's index. */
  ghost function SupersededOf(pending: map<nat, nat>, keys: set<nat>, index: nat): set<Answer> {
    set i | i in keys && i in pending && i <= index :: SupersededAnswer(pending, i)
  }

  ghost function Superseded(pending: map<nat, nat>, index: nat): multiset<Answer> {
    multiset(SupersededOf(pending, pending.Keys, index))
  }

  lemma SupersededStep(pending: map<nat, nat>, done: set<nat>, i: nat, index: nat)
    requires i in pending && i !in done
    ensures multiset(SupersededOf(pending, done + {i}, index))
         == multiset(SupersededOf(pending, done, index))
          + (if i <= index then multiset{SupersededAnswer(pending, i)} else multiset{})
  {
    var a, b := SupersededOf(pending, done, index), SupersededOf(pending, done + {i}, index);
    var more := if i <= index then {SupersededAnswer(pending, i)} else {};
    forall x ensures x in b <==> x in a + more {
      if x in b {
        var j :| j in done + {i} && j in pending && j <= index && SupersededAnswer(pending, j) == x;
        assert j == i || x in a;
      }
      if x in a {
        var j :| j in done && j in pending && j <= index && SupersededAnswer(pending, j) == x;
        assert j in done + {i};
      }
    }
    assert b == a + more && a !! more;
  }

  // ---------------------------------------------------------------- every waiter is accounted for

  lemma KeptStep(pending: map<nat, nat>, less: set<nat>, i: nat, index: nat)
    requires i in pending && i !in less
    ensures |Unless(pending, less + {i}, index)| + (if i <= index then 1 else 0) == |Unless(pending, less, index)|
  {
    if i <= index {
      assert Unless(pending, less + {i}, index) == Unless(pending, less, index) - {i};
    } else {
      assert Unless(pending, less + {i}, index) == Unless(pending, less, index);
    }
  }

  lemma KeptAndSupersededStep(pending: map<nat, nat>, less: set<nat>, i: nat, index: nat)
    requires i in pending && i !in less
    ensures |Unless(pending, less + {i}, index)| + |multiset(SupersededOf(pending, less + {i}, index))|
         == |Unless(pending, less, index)| + |multiset(SupersededOf(pending, less, index))|
  {
    SupersededStep(pending, less, i, index);
    KeptStep(pending, less, i, index);
  }

  lemma {:induction false} KeptAndSuperseded(pending: map<nat, nat>, done: set<nat>, index: nat)
    requires done <= pending.Keys
    ensures |Unless(pending, done, index)| + |multiset(SupersededOf(pending, done, index))| == |pending|
    decreases done
  {
    if done == {} {
      assert Unless(pending, done, index) == pending;
    } else {
      var i :| i in done;
      var less := done - {i};
      KeptAndSuperseded(pending, less, index);
      KeptAndSupersededStep(pending, less, i, index);
      assert less + {i} == done;
    }
  }

  /** A client still waits for the index; its place is about to be taken. */
  ghost predicate Overwrites(d: Desk, ev: Event) { ev.Proposed? && ev.index in d.pending }

  ghost function Accounted(d: Desk): nat { |d.pending| + |d.answered| }

  lemma SnapshotAccounts(pending: map<nat, nat>, index: nat)
    ensures |Above(pending, index)| + |Superseded(pending, index)| == |pending|
  {
    KeptAndSuperseded(pending, pending.Keys, index);
    assert Unless(pending, pending.Keys, index) == Above(pending, index);
  }

  lemma EntryAccounts(pending: map<nat, nat>, index: nat, result: Result)
    ensures |pending - {index}| + |AnswerTo(pending, index, result)| == |pending|
  {
    if index in pending {
      assert pending == (pending - {index})[index := pending[index]];
    } else {
      assert pending - {index} == pending;
    }
  }

  /** Waiters are neither lost nor answered twice, but for one whose place another takes. */
  lemma ServeAccounts(parse: Parser, decode: Decoder, d: Desk, ev: Event)
    ensures Accounted(Serve(parse, decode, d, ev)) == Accounted(d) + if ev.Proposed? && !Overwrites(d, ev) then 1 else 0
  {
    match ev
    case Proposed(index, term) =>
    case Delivered(Command(e)) => EntryAccounts(d.pending, e.index, ResultOf(parse, d.machine, e));
    case Delivered(Snapshot(data, index, _)) => SnapshotAccounts(d.pending, index);
  }

  ghost function ServeAll(parse: Parser, decode: Decoder, d: Desk, evs: seq<Event>): Desk {
    if evs == [] then d else Serve(parse, decode, ServeAll(parse, decode, d, evs[..|evs| - 1]), evs[|evs| - 1])
  }

  ghost function Proposals(evs: seq<Event>): nat {
    if evs == [] then 0 else Proposals(evs[..|evs| - 1]) + if evs[|evs| - 1].Proposed? then 1 else 0
  }

  /** Each proposal found its index free. */
  ghost predicate NoOverwrite(parse: Parser, decode: Decoder, d: Desk, evs: seq<Event>) {
    evs == [] || (NoOverwrite(parse, decode, d, evs[..|evs| - 1])
                  && !Overwrites(ServeAll(parse, decode, d, evs[..|evs| - 1]), evs[|evs| - 1]))
  }

  /**
   Over any history, every client that proposed a write waits or has its one answer exactly if no place was
   taken twice.
   */
  lemma {:induction false} WaitersAccountedIff(parse: Parser, decode: Decoder, d: Desk, evs: seq<Event>)
    ensures Accounted(ServeAll(parse, decode, d, evs)) <= Accounted(d) + Proposals(evs)
    ensures Accounted(ServeAll(parse, decode, d, evs)) == Accounted(d) + Proposals(evs)
       <==> NoOverwrite(parse, decode, d, evs)
  {
    if evs != [] {
      var most := evs[..|evs| - 1];
      WaitersAccountedIff(parse, decode, d, most);
      ServeAccounts(parse, decode, ServeAll(parse, decode, d, most), evs[|evs| - 1]);
    }
  }

  /**
   Over any history, the client waiting for the index of an entry that is delivered gets one answer, and is told of
   success exactly if the entry was applied before, is a put or a delete, or is a retry.
   */
  lemma ToldOkIff(parse: Parser, decode: Decoder, d: Desk, evs: seq<Event>, e: Entry)
    requires e.index in ServeAll(parse, decode, d, evs).pending
    ensures var before := ServeAll(parse, decode, d, evs);
            var after := ServeAll(parse, decode, d, evs + [Delivered(Command(e))]);
            var w := parse(e.data);
            var fine := || e.index <= before.machine.lastApplied
                        || (w.Some? && (w.value.op in ["put", "delete"] || IsRetry(before.machine.lastSeq, w.value)));
            && |after.answered| == |before.answered| + 1 && e.index !in after.pending
            && (after.answered == before.answered + multiset{Answer(e.index, before.pending[e.index], Ok)} <==> fine)
  {
    var before := ServeAll(parse, decode, d, evs);
    assert (evs + [Delivered(Command(e))])[..|evs|] == evs;
    var told, term := ResultOf(parse, before.machine, e), before.pending[e.index];
    OneMore(before.answered, Answer(e.index, term, told), Answer(e.index, term, Ok));
  }

  lemma OneMore(m: multiset<Answer>, a: Answer, b: Answer)
    ensures m + multiset{a} == m + multiset{b} <==> a == b
  {
    if a != b {
      assert (m + multiset{a})[a] == m[a] + 1 && (m + multiset{b})[a] == m[a];
    }
  }

  /**
   Over any history, a snapshot that loads leaves exactly the clients above it waiting, and each of the others is told,
   once, that its entry was superseded; nobody else is told anything.
   */
  lemma ToldSuperseded(parse: Parser, decode: Decoder, d: Desk, evs: seq<Event>, data: Bytes, index: nat, term: nat)
    requires Loads(decode, ServeAll(parse, decode, d, evs).machine, data, index)
    ensures var before := ServeAll(parse, decode, d, evs);
            var after := ServeAll(parse, decode, d, evs + [Delivered(Snapshot(data, index, term))]);
            && (forall i :: i in after.pending <==> i in before.pending && i > index)
            && (forall i :: i in after.pending ==> after.pending[i] == before.pending[i])
            && forall a: Answer :: after.answered[a] == before.answered[a]
                 + if a.index in before.pending && a.index <= index
                      && a == Answer(a.index, before.pending[a.index],
                                     Failed("entry superseded by an installed snapshot"))
                   then 1 else 0
  {
    var before := ServeAll(parse, decode, d, evs);
    assert (evs + [Delivered(Snapshot(data, index, term))])[..|evs|] == evs;
    forall a: Answer
      ensures Superseded(before.pending, index)[a]
           == if a.index in before.pending && a.index <= index && a == SupersededAnswer(before.pending, a.index)
              then 1 else 0
    {
      if a in SupersededOf(before.pending, before.pending.Keys, index) {
        var i :| i in before.pending && i <= index && SupersededAnswer(before.pending, i) == a;
      }
    }
  }

  /** The client of a write that lost its index to a later leader's entry is told that its write succeeded. */
  lemma WrongClientIsTold(parse: Parser, decode: Decoder)
    requires parse([2]) == Some(Write("put", [1], [2], "", 0))
    ensures var d := ServeAll(parse, decode, Desk(BLANK, map[], multiset{}),
                              [Proposed(1, 1), Delivered(Command(Entry(1, 2, [2])))]);
            Answer(1, 1, Ok) in d.answered && d.machine.data == map[[1] := [2]]
  {
    var first := [Proposed(1, 1)];
    var evs := [Proposed(1, 1), Delivered(Command(Entry(1, 2, [2])))];
    assert evs[..1] == first && first[..0] == [];
    assert ServeAll(parse, decode, Desk(BLANK, map[], multiset{}), first) == Desk(BLANK, map[1 := 1], multiset{});
  }

  /**
   Proposed in term 1 at index 1, overruled, proposed again there in term 3: the first client has neither
   place nor answer.
   */
  lemma FirstClientIsForgotten(parse: Parser, decode: Decoder, e: Entry)
    requires e.index == 1 && e.term == 3
    ensures var d := ServeAll(parse, decode, Desk(BLANK, map[], multiset{}),
                              [Proposed(1, 1), Proposed(1, 3), Delivered(Command(e))]);
            d.pending == map[] && |d.answered| == 1 && forall a :: a in d.answered ==> a.term == 3
  {
    var d0 := Desk(BLANK, map[], multiset{});
    var evs := [Proposed(1, 1), Proposed(1, 3), Delivered(Command(e))];
    assert evs[..2] == [Proposed(1, 1), Proposed(1, 3)];
    assert evs[..2][..1] == [Proposed(1, 1)] && evs[..2][..1][..0] == [];
    assert ServeAll(parse, decode, d0, evs[..2][..1]) == Desk(BLANK, map[1 := 1], multiset{});
    assert ServeAll(parse, decode, d0, evs[..2]) == Desk(BLANK, map[1 := 3], multiset{});
    assert ServeAll(parse, decode, d0, evs) == Serve(parse, decode, Desk(BLANK, map[1 := 3], multiset{}), evs[2]);
  }
}
