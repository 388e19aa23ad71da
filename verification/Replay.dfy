/**
 What applying a log amounts to: which writes take effect is decided by the log alone, so that a restarted
 machine may apply its whole log again, over any earlier state, and end up where it was.
 */
module Replay {

  import opened Wrappers
  import opened Bytes
  import opened RaftTypes
  import opened StateMachine

  function RunLog(parse: Parser, s: Machine, log: seq<Entry>): Machine {
    if log == [] then s else ApplyEntry(parse, RunLog(parse, s, log[..|log| - 1]), log[|log| - 1])
  }

  /** Entry j is a well-formed write of client c. */
  ghost predicate ByClient(parse: Parser, log: seq<Entry>, j: nat, c: string)
    requires j < |log|
  {
    && parse(log[j].data).Some?
    && var w := parse(log[j].data).value; w.clientId == c && Known(w)
  }

  function SeqAt(parse: Parser, log: seq<Entry>, j: nat): nat
    requires j < |log| && parse(log[j].data).Some?
  {
    parse(log[j].data).value.seqNum
  }

  /**
   The write at k has a higher sequence number than every earlier write of its client from entry m on; anonymous
   writes always count.
   */
  ghost predicate CountsFrom(parse: Parser, log: seq<Entry>, m: nat, k: nat)
    requires k < |log|
  {
    && parse(log[k].data).Some?
    && var w := parse(log[k].data).value;
       w.clientId != "" ==>
         forall j: nat :: m <= j < k && ByClient(parse, log, j, w.clientId) ==> SeqAt(parse, log, j) < w.seqNum
  }

  /** It has a higher sequence number than all earlier writes of its client. */
  ghost predicate Counts(parse: Parser, log: seq<Entry>, k: nat)
    requires k < |log|
  {
    CountsFrom(parse, log, 0, k)
  }

  /** The entries from m to n, performed on d; only writes that count among these take effect. */
  ghost function EffectFrom(parse: Parser, log: seq<Entry>, m: nat, n: nat, d: Data): Data
    requires m <= n <= |log|
  {
    if n == m then d
    else if CountsFrom(parse, log, m, n - 1)
    then Perform(EffectFrom(parse, log, m, n - 1, d), parse(log[n - 1].data).value)
    else EffectFrom(parse, log, m, n - 1, d)
  }

  /** The first n entries, performed on d. */
  ghost function Effect(parse: Parser, log: seq<Entry>, n: nat, d: Data): Data
    requires n <= |log|
  {
    EffectFrom(parse, log, 0, n, d)
  }

  // ---------------------------------------------------------------- deduplication

  ghost predicate Witness(parse: Parser, log: seq<Entry>, m: nat, n: nat, c: string, q: nat, j: nat) {
    m <= j < n <= |log| && ByClient(parse, log, j, c) && SeqAt(parse, log, j) == q
  }

  ghost predicate Seen(parse: Parser, log: seq<Entry>, m: nat, n: nat, c: string, q: nat) {
    exists j: nat :: Witness(parse, log, m, n, c, q, j)
  }

  /**
   The table has, for each named client with a well-formed write from m to n, the highest sequence number of
   these.
   */
  ghost predicate TableOk(parse: Parser, log: seq<Entry>, m: nat, n: nat, table: map<string, nat>)
    requires n <= |log|
  {
    && (forall c :: c in table ==> c != "" && Seen(parse, log, m, n, c, table[c]))
    && (forall j: nat, c :: m <= j < n && c != "" && ByClient(parse, log, j, c) ==>
          c in table && SeqAt(parse, log, j) <= table[c])
  }

  /** The table tells a retry from a write that counts. */
  lemma RetryIffNotCounted(parse: Parser, log: seq<Entry>, m: nat, n: nat, table: map<string, nat>)
    requires n < |log| && TableOk(parse, log, m, n, table) && parse(log[n].data).Some?
    ensures IsRetry(table, parse(log[n].data).value) <==> !CountsFrom(parse, log, m, n)
  {
    var w := parse(log[n].data).value;
    if w.clientId != "" && w.clientId in table {
      var j: nat :| Witness(parse, log, m, n, w.clientId, table[w.clientId], j);
      assert ByClient(parse, log, j, w.clientId);
    }
  }

  lemma TableStep(parse: Parser, log: seq<Entry>, m: nat, n: nat, table: map<string, nat>)
    requires m <= n < |log| && TableOk(parse, log, m, n, table)
    ensures var cmd := parse(log[n].data);
            TableOk(parse, log, m, n + 1,
                    if cmd.Some? && CountsFrom(parse, log, m, n) then Remember(table, cmd.value) else table)
  {
    var cmd := parse(log[n].data);
    var table' := if cmd.Some? && CountsFrom(parse, log, m, n) then Remember(table, cmd.value) else table;
    if cmd.Some? {
      RetryIffNotCounted(parse, log, m, n, table);
    }
    forall c | c in table' ensures c != "" && Seen(parse, log, m, n + 1, c, table'[c]) {
      if c in table && table'[c] == table[c] {
        var j: nat :| Witness(parse, log, m, n, c, table[c], j);
        assert Witness(parse, log, m, n + 1, c, table'[c], j);
      } else {
        assert Witness(parse, log, m, n + 1, c, table'[c], n);
      }
    }
    forall j: nat, c | m <= j < n + 1 && c != "" && ByClient(parse, log, j, c)
      ensures c in table' && SeqAt(parse, log, j) <= table'[c]
    {
      if j < n {
        assert c in table && SeqAt(parse, log, j) <= table[c];
      }
    }
  }

  /** The machine, whose table knows of no entry before m, has performed the entries from m to n on d. */
  ghost predicate HasPerformed(parse: Parser, log: seq<Entry>, m: nat, n: nat, d: Data, s: Machine)
    requires m <= n <= |log|
  {
    s.data == EffectFrom(parse, log, m, n, d) && TableOk(parse, log, m, n, s.lastSeq)
  }

  lemma PerformsNext(parse: Parser, log: seq<Entry>, m: nat, n: nat, d: Data, s: Machine)
    requires m <= n < |log| && log[n].index > s.lastApplied && HasPerformed(parse, log, m, n, d, s)
    ensures HasPerformed(parse, log, m, n + 1, d, ApplyEntry(parse, s, log[n]))
    ensures ApplyEntry(parse, s, log[n]).lastApplied == log[n].index
  {
    TableStep(parse, log, m, n, s.lastSeq);
    if parse(log[n].data).Some? {
      RetryIffNotCounted(parse, log, m, n, s.lastSeq);
    }
  }

  /** Applying the entries from m on to a machine with an empty table performs exactly those that count from m on. */
  lemma {:induction false} PerformsFrom(parse: Parser, log: seq<Entry>, m: nat, n: nat, d: Data)
    requires Indexed(log) && m <= n <= |log|
    ensures var s := RunLog(parse, Machine(d, m, map[]), log[m..n]);
            HasPerformed(parse, log, m, n, d, s) && s.lastApplied == n
  {
    if n > m {
      PerformsFrom(parse, log, m, n - 1, d);
      assert log[m..n][..n - 1 - m] == log[m..n - 1];
      PerformsNext(parse, log, m, n - 1, d, RunLog(parse, Machine(d, m, map[]), log[m..n - 1]));
    }
  }

  /**
   Deduplication: applying a log to a machine with an empty table performs exactly the writes that count, in
   order, and leaves in the table the highest sequence number of every client.
   */
  lemma DedupPerformsCounted(parse: Parser, log: seq<Entry>, n: nat, d: Data)
    requires Indexed(log) && n <= |log|
    ensures var s := RunLog(parse, Machine(d, 0, map[]), log[..n]);
            s.data == Effect(parse, log, n, d) && TableOk(parse, log, 0, n, s.lastSeq) && s.lastApplied == n
  {
    PerformsFrom(parse, log, 0, n, d);
    assert log[0..n] == log[..n];
  }

  /**
   What the client waiting for entry n is told, over any log: that it is corrupt if it does not parse, success if it is
   a put or a delete or repeats a write of its client with a sequence number as high, and otherwise that the operation
   is unknown.
   */
  lemma ToldOverLog(parse: Parser, log: seq<Entry>, n: nat, d: Data)
    requires Indexed(log) && n < |log|
    ensures var told := ResultOf(parse, RunLog(parse, Machine(d, 0, map[]), log[..n]), log[n]);
            var cmd := parse(log[n].data);
            && (told == CORRUPT <==> cmd.None?)
            && (told == Ok <==> cmd.Some? && (cmd.value.op in ["put", "delete"] || Repeats(parse, log, n)))
            && (told == UNKNOWN_OP <==> cmd.Some? && told != Ok)
  {
    DedupPerformsCounted(parse, log, n, d);
    if parse(log[n].data).Some? {
      RetryIffNotCounted(parse, log, 0, n, RunLog(parse, Machine(d, 0, map[]), log[..n]).lastSeq);
      RepeatsIff(parse, log, n);
    }
  }

  /** An earlier put or delete of the same named client had a sequence number as high. */
  ghost predicate Repeats(parse: Parser, log: seq<Entry>, n: nat)
    requires n < |log| && parse(log[n].data).Some?
  {
    var w := parse(log[n].data).value;
    && w.clientId != ""
    && exists j: nat :: j < n && ByClient(parse, log, j, w.clientId) && SeqAt(parse, log, j) >= w.seqNum
  }

  lemma RepeatsIff(parse: Parser, log: seq<Entry>, n: nat)
    requires n < |log| && parse(log[n].data).Some?
    ensures Repeats(parse, log, n) <==> !Counts(parse, log, n)
  {
  }

  // ---------------------------------------------------------------- replay

  function Lookup(d: Data, k: Key): Option<Bytes> { if k in d then Some(d[k]) else None }

  /** Entry k, before n, puts or deletes the key, and counts from m on. */
  ghost predicate TouchedAt(parse: Parser, log: seq<Entry>, m: nat, n: nat, key: Key, k: nat) {
    && m <= k < n && k < |log| && CountsFrom(parse, log, m, k)
    && Known(parse(log[k].data).value) && parse(log[k].data).value.key == key
  }

  /** A write that counts from m on puts or deletes the key before entry n. */
  ghost predicate TouchedFrom(parse: Parser, log: seq<Entry>, m: nat, n: nat, key: Key) {
    exists k: nat :: TouchedAt(parse, log, m, n, key, k)
  }

  lemma TouchedLater(parse: Parser, log: seq<Entry>, m: nat, n: nat, n': nat, key: Key)
    requires n <= n' && TouchedFrom(parse, log, m, n, key)
    ensures TouchedFrom(parse, log, m, n', key)
  {
    var k: nat :| TouchedAt(parse, log, m, n, key, k);
    assert TouchedAt(parse, log, m, n', key, k);
  }

  lemma {:induction false} UntouchedStays(parse: Parser, log: seq<Entry>, m: nat, n: nat, d: Data, key: Key)
    requires m <= n <= |log| && !TouchedFrom(parse, log, m, n, key)
    ensures Lookup(EffectFrom(parse, log, m, n, d), key) == Lookup(d, key)
  {
    if n > m {
      if TouchedFrom(parse, log, m, n - 1, key) {
        TouchedLater(parse, log, m, n - 1, n, key);
      }
      assert !TouchedAt(parse, log, m, n, key, n - 1);
      UntouchedStays(parse, log, m, n - 1, d, key);
    }
  }

  lemma {:induction false} TouchedForgets(parse: Parser, log: seq<Entry>, m: nat, n: nat, d: Data, d': Data, key: Key)
    requires m <= n <= |log| && TouchedFrom(parse, log, m, n, key)
    ensures Lookup(EffectFrom(parse, log, m, n, d), key) == Lookup(EffectFrom(parse, log, m, n, d'), key)
  {
    var k: nat :| TouchedAt(parse, log, m, n, key, k);
    if k < n - 1 {
      assert TouchedAt(parse, log, m, n - 1, key, k);
      TouchedForgets(parse, log, m, n - 1, d, d', key);
    } else if TouchedFrom(parse, log, m, n - 1, key) {
      TouchedForgets(parse, log, m, n - 1, d, d', key);
    }
  }

  /** Entry k is the last before n that counts from m on and touches the key. */
  ghost predicate LastTouch(parse: Parser, log: seq<Entry>, m: nat, n: nat, key: Key, k: nat) {
    TouchedAt(parse, log, m, n, key, k) && forall j: nat :: k < j ==> !TouchedAt(parse, log, m, n, key, j)
  }

  /** What a write leaves under its key. */
  function Says(w: Write): Option<Bytes> { if w.op == "put" then Some(w.value) else None }

  /** After the last write that touches a key, the key has the value it puts, or none if it deletes. */
  lemma {:induction false} LastWriteWins(parse: Parser, log: seq<Entry>, m: nat, n: nat, d: Data, key: Key, k: nat)
    requires m <= n <= |log| && LastTouch(parse, log, m, n, key, k)
    ensures var w := parse(log[k].data).value;
            Lookup(EffectFrom(parse, log, m, n, d), key) == Says(w)
    decreases n
  {
    if k < n - 1 {
      var n' := n - 1;
      assert !TouchedAt(parse, log, m, n, key, n');
      forall j: nat | k < j ensures !TouchedAt(parse, log, m, n', key, j) {
        assert !TouchedAt(parse, log, m, n, key, j);
      }
      LastWriteWins(parse, log, m, n', d, key, k);
    }
  }

  lemma {:induction false} SomeTouchIsLast(parse: Parser, log: seq<Entry>, m: nat, n: nat, key: Key)
    requires n <= |log| && TouchedFrom(parse, log, m, n, key)
    ensures exists k: nat :: LastTouch(parse, log, m, n, key, k)
    decreases n
  {
    var k: nat :| TouchedAt(parse, log, m, n, key, k);
    if TouchedAt(parse, log, m, n, key, n - 1) {
      assert LastTouch(parse, log, m, n, key, n - 1);
    } else {
      assert TouchedAt(parse, log, m, n - 1, key, k);
      SomeTouchIsLast(parse, log, m, n - 1, key);
      var last: nat :| LastTouch(parse, log, m, n - 1, key, last);
      LastTouchStays(parse, log, m, n, key, last);
    }
  }

  lemma LastTouchStays(parse: Parser, log: seq<Entry>, m: nat, n: nat, key: Key, k: nat)
    requires 0 < n <= |log| && LastTouch(parse, log, m, n - 1, key, k) && !TouchedAt(parse, log, m, n, key, n - 1)
    ensures LastTouch(parse, log, m, n, key, k)
  {
    forall j: nat | k < j ensures !TouchedAt(parse, log, m, n, key, j) {
      assert !TouchedAt(parse, log, m, n - 1, key, j);
    }
  }

  /** What is read after any log: what the last write that counts and touches the key says, or what was there before. */
  lemma ReadsLastWrite(parse: Parser, log: seq<Entry>, m: nat, n: nat, d: Data, key: Key)
    requires m <= n <= |log|
    ensures var read := Lookup(EffectFrom(parse, log, m, n, d), key);
            if TouchedFrom(parse, log, m, n, key)
            then exists k: nat :: LastTouch(parse, log, m, n, key, k) && read == Says(parse(log[k].data).value)
            else read == Lookup(d, key)
  {
    if TouchedFrom(parse, log, m, n, key) {
      SomeTouchIsLast(parse, log, m, n, key);
      var k: nat :| LastTouch(parse, log, m, n, key, k);
      LastWriteWins(parse, log, m, n, d, key, k);
    } else {
      UntouchedStays(parse, log, m, n, d, key);
    }
  }

  lemma SameLookups(a: Data, b: Data)
    requires forall key :: Lookup(a, key) == Lookup(b, key)
    ensures a == b
  {
    forall key ensures key in a <==> key in b {
      assert Lookup(a, key) == Lookup(b, key);
    }
    forall key | key in a ensures a[key] == b[key] {
      assert Lookup(a, key) == Lookup(b, key);
    }
  }

  /** The maps agree on every key that the entries from m to n leave alone. */
  ghost predicate AgreeUntouched(parse: Parser, log: seq<Entry>, m: nat, n: nat, d: Data, d': Data) {
    forall key :: TouchedFrom(parse, log, m, n, key) || Lookup(d, key) == Lookup(d', key)
  }

  /** The entries from m to n make the same of two maps exactly if these agree on every key the entries leave alone. */
  lemma SameFromIff(parse: Parser, log: seq<Entry>, m: nat, n: nat, d: Data, d': Data)
    requires m <= n <= |log|
    ensures EffectFrom(parse, log, m, n, d) == EffectFrom(parse, log, m, n, d')
       <==> AgreeUntouched(parse, log, m, n, d, d')
  {
    var a, b := EffectFrom(parse, log, m, n, d), EffectFrom(parse, log, m, n, d');
    forall key ensures Lookup(a, key) == Lookup(b, key)
                  <==> TouchedFrom(parse, log, m, n, key) || Lookup(d, key) == Lookup(d', key)
    {
      if TouchedFrom(parse, log, m, n, key) {
        TouchedForgets(parse, log, m, n, d, d', key);
      } else {
        UntouchedStays(parse, log, m, n, d, key);
        UntouchedStays(parse, log, m, n, d', key);
      }
    }
    if AgreeUntouched(parse, log, m, n, d, d') {
      SameLookups(a, b);
    } else {
      var key :| !(TouchedFrom(parse, log, m, n, key) || Lookup(d, key) == Lookup(d', key));
      assert Lookup(a, key) != Lookup(b, key);
    }
  }

  /** The less a table knows, the more counts. */
  lemma CountsMore(parse: Parser, log: seq<Entry>, m: nat, b: nat, k: nat)
    requires m <= b && k < |log| && CountsFrom(parse, log, m, k)
    ensures CountsFrom(parse, log, b, k)
  {
  }

  lemma TouchedMore(parse: Parser, log: seq<Entry>, m: nat, b: nat, n: nat, key: Key, k: nat)
    requires m <= b <= k && TouchedAt(parse, log, m, n, key, k)
    ensures TouchedFrom(parse, log, b, n, key)
  {
    CountsMore(parse, log, m, b, k);
    assert TouchedAt(parse, log, b, n, key, k);
  }

  /**
   A key that the entries from b on leave alone stays as it was at b, also for a machine whose table goes
   further back.
   */
  lemma {:induction false} QuietBetween(parse: Parser, log: seq<Entry>, m: nat, b: nat, q: nat, g: Data, key: Key)
    requires m <= b <= q <= |log| && !TouchedFrom(parse, log, b, q, key)
    ensures Lookup(EffectFrom(parse, log, m, q, g), key) == Lookup(EffectFrom(parse, log, m, b, g), key)
    decreases q
  {
    if q > b {
      if TouchedFrom(parse, log, b, q - 1, key) {
        TouchedLater(parse, log, b, q - 1, q, key);
      }
      if TouchedAt(parse, log, m, q, key, q - 1) {
        TouchedMore(parse, log, m, b, q, key, q - 1);
      }
      QuietBetween(parse, log, m, b, q - 1, g, key);
    }
  }

  /**
   Performing the entries from b to n over a state that already has some of them, up to q, comes to the same as
   performing them over the state at b.
   */
  lemma EffectAbsorbs(parse: Parser, log: seq<Entry>, m: nat, b: nat, q: nat, n: nat, g: Data)
    requires m <= b <= q <= n <= |log|
    ensures EffectFrom(parse, log, b, n, EffectFrom(parse, log, m, q, g))
         == EffectFrom(parse, log, b, n, EffectFrom(parse, log, m, b, g))
  {
    var late, early := EffectFrom(parse, log, m, q, g), EffectFrom(parse, log, m, b, g);
    forall key ensures TouchedFrom(parse, log, b, n, key) || Lookup(late, key) == Lookup(early, key) {
      if !TouchedFrom(parse, log, b, n, key) {
        if TouchedFrom(parse, log, b, q, key) {
          TouchedLater(parse, log, b, q, n, key);
        }
        QuietBetween(parse, log, m, b, q, g, key);
      }
    }
    SameFromIff(parse, log, b, n, late, early);
  }

  /**
   Recovery: a machine that lost its table and kept the map of any earlier moment, and applies its log from the
   first entry, ends with the map it would have had without the crash.
   */
  lemma ReplayRestoresData(parse: Parser, log: seq<Entry>, m: nat, n: nat)
    requires Indexed(log) && m <= n <= |log|
    ensures var kept := RunLog(parse, BLANK, log[..m]).data;
            RunLog(parse, Machine(kept, 0, map[]), log[..n]).data == RunLog(parse, BLANK, log[..n]).data
  {
    var kept := RunLog(parse, BLANK, log[..m]).data;
    DedupPerformsCounted(parse, log, m, map[]);
    DedupPerformsCounted(parse, log, n, map[]);
    DedupPerformsCounted(parse, log, n, kept);
    EffectAbsorbs(parse, log, 0, 0, m, n, map[]);
  }

  // ---------------------------------------------------------------- forgetting the table

  /** What a machine holds after n entries if it took the effect of the first m from a snapshot, without their table. */
  ghost function EffectForgetting(parse: Parser, log: seq<Entry>, m: nat, n: nat): Data
    requires m <= n <= |log|
  {
    EffectFrom(parse, log, m, n, Effect(parse, log, m, map[]))
  }

  /** Entry k is performed again after the table was lost at m, and that changes what it finds. */
  ghost predicate Harms(parse: Parser, log: seq<Entry>, m: nat, k: nat)
    requires k < |log|
  {
    && CountsFrom(parse, log, m, k) && !Counts(parse, log, k)
    && Perform(Effect(parse, log, k, map[]), parse(log[k].data).value) != Effect(parse, log, k, map[])
  }

  /** None of the entries up to n is harmed. */
  ghost predicate Harmless(parse: Parser, log: seq<Entry>, m: nat, n: nat)
    requires n <= |log|
  {
    forall k: nat :: m <= k < n ==> !Harms(parse, log, m, k)
  }

  lemma ForgettingStep(parse: Parser, log: seq<Entry>, m: nat, k: nat)
    requires m <= k < |log| && EffectForgetting(parse, log, m, k) == Effect(parse, log, k, map[])
    ensures EffectForgetting(parse, log, m, k + 1) == Effect(parse, log, k + 1, map[]) <==> !Harms(parse, log, m, k)
  {
    if Counts(parse, log, k) {
      CountsMore(parse, log, 0, m, k);
    }
  }

  lemma {:induction false} HarmlessKeeps(parse: Parser, log: seq<Entry>, m: nat, n: nat)
    requires m <= n <= |log| && Harmless(parse, log, m, n)
    ensures EffectForgetting(parse, log, m, n) == Effect(parse, log, n, map[])
  {
    if n > m {
      HarmlessKeeps(parse, log, m, n - 1);
      ForgettingStep(parse, log, m, n - 1);
    }
  }

  /** A machine that installed the snapshot of the first m entries and then applied the entries up to n. */
  function Resumed(parse: Parser, log: seq<Entry>, m: nat, n: nat): Machine
    requires m <= n <= |log|
  {
    RunLog(parse, Machine(RunLog(parse, BLANK, log[..m]).data, m, map[]), log[m..n])
  }

  lemma ResumedHolds(parse: Parser, log: seq<Entry>, m: nat, n: nat)
    requires Indexed(log) && m <= n <= |log|
    ensures Resumed(parse, log, m, n).data == EffectForgetting(parse, log, m, n)
    ensures RunLog(parse, BLANK, log[..n]).data == Effect(parse, log, n, map[])
  {
    DedupPerformsCounted(parse, log, m, map[]);
    DedupPerformsCounted(parse, log, n, map[]);
    PerformsFrom(parse, log, m, n, Effect(parse, log, m, map[]));
  }

  ghost predicate SameAt(parse: Parser, log: seq<Entry>, m: nat, n: nat)
    requires m <= n <= |log|
  {
    Resumed(parse, log, m, n).data == RunLog(parse, BLANK, log[..n]).data
  }

  /**
   Losing the table at m never shows exactly if every entry that is performed again only because of it leaves the map
   as it finds it.
   */
  lemma ForgettingUnnoticedIff(parse: Parser, log: seq<Entry>, m: nat)
    requires Indexed(log) && m <= |log|
    ensures (forall n: nat :: m <= n <= |log| ==> SameAt(parse, log, m, n)) <==> Harmless(parse, log, m, |log|)
  {
    if Harmless(parse, log, m, |log|) {
      forall n: nat | m <= n <= |log| ensures SameAt(parse, log, m, n) {
        HarmlessKeeps(parse, log, m, n);
        ResumedHolds(parse, log, m, n);
      }
    } else {
      var k: nat :| m <= k < |log| && Harms(parse, log, m, k);
      ResumedHolds(parse, log, m, k);
      ResumedHolds(parse, log, m, k + 1);
      if SameAt(parse, log, m, k) {
        ForgettingStep(parse, log, m, k);
        assert !SameAt(parse, log, m, k + 1);
      }
    }
  }

  /** A retry that reaches one machine after a snapshot and another after the entries the snapshot stands for. */
  lemma SnapshotForgetsRetries(decode: Decoder, image: Bytes)
    requires decode(image) == Some(map[[1] := [2]])
    ensures var parse: Parser := b => Some(Write("put", [1], b, "c", if b == [1] then 1 else 2));
            var log := [Entry(1, 1, [1]), Entry(2, 1, [2])];
            var retry := Entry(3, 1, [1]);
            var applied := RunLog(parse, BLANK, log);
            var installed := ApplySnapshot(decode, BLANK, image, 2);
            && applied.data == installed.data == map[[1] := [2]]
            && ApplyEntry(parse, applied, retry).data == map[[1] := [2]]
            && ApplyEntry(parse, installed, retry).data == map[[1] := [1]]
  {
    var parse: Parser := b => Some(Write("put", [1], b, "c", if b == [1] then 1 else 2));
    var log := [Entry(1, 1, [1]), Entry(2, 1, [2])];
    assert log[..1] == [Entry(1, 1, [1])] && log[..1][..0] == [];
    assert RunLog(parse, BLANK, log[..1]) == Machine(map[[1] := [1]], 1, map["c" := 1]);
    assert RunLog(parse, BLANK, log) == Machine(map[[1] := [2]], 2, map["c" := 2]);
  }
}
