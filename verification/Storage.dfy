/**
  Persistence of orders, fills and session messages: accepted items go through a queue and a batch cache into the
  database, one transaction at a time; when the database cannot keep up they are handed over, in order, to a file.
 */
module Storage {

  datatype Settings = Settings(maxQueueDb: nat, maxQueueFile: nat, batch: nat, maxBatch: nat)

  /**
    What is stored, what is waiting, and how far the file thread has come: started, database given up (`stopDb`), new
    items sent to the file (`doneDb`), waiting items handed over (`handed`).
   */
  datatype Store<T> = Store(
    db: seq<T>, file: seq<T>, cache: seq<T>, pipeDb: seq<T>, pipeFile: seq<T>,
    connected: bool, fileOpen: bool, stopDb: bool, doneDb: bool, fileStarted: bool, handed: bool)

  /** A store connected to its database and its file, with nothing in it. */
  function Fresh<T>(): Store<T> {
    Store([], [], [], [], [], true, true, false, false, false, false)
  }

  function Min(a: nat, b: nat): nat {
    if a < b then a else b
  }

  /** The first k cached items have been committed. */
  function Committed<T>(s: Store<T>, k: nat): Store<T>
    requires k <= |s.cache|
  {
    s.(db := s.db + s.cache[..k], cache := s.cache[k..])
  }

  // ---------- the steps of the producers and of the two threads ----------

  /** Where an accepted item goes; None if it is refused. */
  datatype Target = ToDb | ToFile | Refused

  function TargetOf<T>(c: Settings, s: Store<T>): Target {
    if s.doneDb then (if |s.pipeFile| > c.maxQueueFile then Refused else ToFile)
    else if |s.pipeDb| > c.maxQueueDb then ToFile
    else ToDb
  }

  function Accept<T>(c: Settings, s: Store<T>, x: T): Store<T> {
    match TargetOf(c, s)
    case Refused => s
    case ToDb => s.(pipeDb := s.pipeDb + [x])
    case ToFile => s.(pipeFile := s.pipeFile + [x], fileStarted := s.fileStarted || !s.doneDb)
  }

  /** The database thread takes one item into the cache; a full batch is flushed, k items with success. */
  function ReadOne<T>(c: Settings, s: Store<T>, k: nat): Store<T> {
    if s.handed || s.pipeDb == [] || !s.connected || |s.cache| > c.maxBatch then s else
    var t := s.(cache := s.cache + [s.pipeDb[0]], pipeDb := s.pipeDb[1..]);
    if |t.cache| < c.batch then t else Flush(t, k)
  }

  function Flush<T>(s: Store<T>, k: nat): Store<T> {
    if s.stopDb then s else Committed(s, Min(k, |s.cache|))
  }

  /** A flush that does not empty the cache starts the file thread. */
  function FlushOrSpill<T>(s: Store<T>, k: nat): Store<T> {
    if s.handed then s else
    var t := Flush(s, k);
    if t.cache != [] && !t.stopDb then t.(fileStarted := true) else t
  }

  /** The file thread begins: the database is given up and its thread told to end. */
  function StopDb<T>(s: Store<T>): Store<T> {
    if !s.fileStarted || s.handed then s else s.(stopDb := true, doneDb := true)
  }

  /** Once the database thread has ended: what it left goes to the file queue, before everything there. */
  function TakeOver<T>(s: Store<T>): Store<T> {
    if !s.stopDb || s.handed then s
    else s.(handed := true, pipeFile := s.cache + s.pipeDb + s.pipeFile, cache := [], pipeDb := [])
  }

  function WriteOne<T>(s: Store<T>): Store<T> {
    if !s.handed || !s.fileOpen || s.pipeFile == [] then s
    else s.(file := s.file + [s.pipeFile[0]], pipeFile := s.pipeFile[1..])
  }

  datatype Op<T> = Put(item: T) | Read(commits: nat) | Tick(commits: nat) | GiveUp | HandOver | Write | Disconnect

  function Apply<T>(c: Settings, s: Store<T>, op: Op<T>): Store<T> {
    match op
    case Put(x) => Accept(c, s, x)
    case Read(k) => ReadOne(c, s, k)
    case Tick(k) => FlushOrSpill(s, k)
    case GiveUp => StopDb(s)
    case HandOver => TakeOver(s)
    case Write => WriteOne(s)
    case Disconnect => s.(connected := false)
  }

  function Run<T>(c: Settings, s: Store<T>, ops: seq<Op<T>>): Store<T>
    decreases |ops|
  {
    if ops == [] then s else Run(c, Apply(c, s, ops[0]), ops[1..])
  }

  // ---------- order ----------

  /** Everything the store holds, in the order in which it will be read back. */
  function Journal<T>(s: Store<T>): seq<T> {
    s.db + s.file + s.cache + s.pipeDb + s.pipeFile
  }

  /** Before the hand-over nothing is in the file; after it nothing waits for the database. */
  predicate Phased<T>(s: Store<T>) {
    && (s.handed ==> s.stopDb && s.cache == [] && s.pipeDb == [])
    && (!s.handed ==> s.file == [])
    && (s.stopDb <==> s.doneDb) && (s.doneDb ==> s.fileStarted)
    && (!s.fileStarted ==> s.pipeFile == [])
  }

  lemma {:induction false} PhasedStep<T>(c: Settings, s: Store<T>, op: Op<T>)
    requires Phased(s)
    ensures Phased(Apply(c, s, op)) && Apply(c, s, op).fileOpen == s.fileOpen
  {
  }

  /** Commits, flushes, the hand-over and file writes move items along without reordering any. */
  lemma {:induction false} StepKeepsOrder<T>(c: Settings, s: Store<T>, op: Op<T>)
    requires Phased(s) && !op.Put?
    ensures Journal(Apply(c, s, op)) == Journal(s)
  {
    hide ReadOne, FlushOrSpill, TakeOver, WriteOne, Journal;
    match op
    case Read(k) => ReadKeepsOrder(c, s, k);
    case Tick(k) => TickKeepsOrder(s, k);
    case GiveUp => FlagsKeepOrder(s, StopDb(s));
    case HandOver => HandOverKeepsOrder(s);
    case Write => HandOverKeepsOrder(s);
    case Disconnect => FlagsKeepOrder(s, s.(connected := false));
  }

  lemma {:induction false} FlagsKeepOrder<T>(s: Store<T>, r: Store<T>)
    requires r.db == s.db && r.file == s.file && r.cache == s.cache && r.pipeDb == s.pipeDb && r.pipeFile == s.pipeFile
    ensures Journal(r) == Journal(s)
  {
  }

  lemma {:induction false} ReadKeepsOrder<T>(c: Settings, s: Store<T>, k: nat)
    requires Phased(s)
    ensures Journal(ReadOne(c, s, k)) == Journal(s)
  {
    hide Flush;
    if !(s.handed || s.pipeDb == [] || !s.connected || |s.cache| > c.maxBatch) {
      var t := s.(cache := s.cache + [s.pipeDb[0]], pipeDb := s.pipeDb[1..]);
      assert t.cache + t.pipeDb == s.cache + s.pipeDb;
      assert s.db + s.file + t.cache + t.pipeDb == s.db + s.file + (t.cache + t.pipeDb);
      assert s.db + s.file + s.cache + s.pipeDb == s.db + s.file + (s.cache + s.pipeDb);
      FlushKeepsOrder(t, k);
    }
  }

  lemma {:induction false} TickKeepsOrder<T>(s: Store<T>, k: nat)
    requires Phased(s)
    ensures Journal(FlushOrSpill(s, k)) == Journal(s)
  {
    hide Flush, Journal;
    if !s.handed {
      FlushKeepsOrder(s, k);
      FlagsKeepOrder(Flush(s, k), FlushOrSpill(s, k));
    }
  }

  lemma {:induction false} HandOverKeepsOrder<T>(s: Store<T>)
    requires Phased(s)
    ensures Journal(TakeOver(s)) == Journal(s) && Journal(WriteOne(s)) == Journal(s)
  {
    if s.pipeFile != [] {
      assert [s.pipeFile[0]] + s.pipeFile[1..] == s.pipeFile;
    }
  }

  lemma {:induction false} FlushKeepsOrder<T>(s: Store<T>, k: nat)
    requires s.stopDb || s.file == []
    ensures Journal(Flush(s, k)) == Journal(s)
  {
    var n := Min(k, |s.cache|);
    assert s.cache[..n] + s.cache[n..] == s.cache;
  }

  /** Does the next item slip in front of items that wait for the file? */
  predicate Overtakes<T>(c: Settings, s: Store<T>): (r: bool)
    ensures r ==> !TargetOf(c, s).Refused?
  {
    TargetOf(c, s).ToDb? && s.pipeFile != []
  }

  /** An accepted item lands at the end of the journal exactly when it is not slipped in front of a waiting file queue. */
  lemma {:induction false} PutKeepsOrder<T>(c: Settings, s: Store<T>, x: T)
    requires x !in s.pipeFile
    ensures TargetOf(c, s).Refused? ==> Accept(c, s, x) == s
    ensures !TargetOf(c, s).Refused? ==> (Journal(Accept(c, s, x)) == Journal(s) + [x] <==> !Overtakes(c, s))
  {
    if Overtakes(c, s) {
      var a := s.db + s.file + s.cache + s.pipeDb;
      assert Journal(Accept(c, s, x)) == a + ([x] + s.pipeFile);
      assert Journal(s) + [x] == a + (s.pipeFile + [x]);
      assert (a + ([x] + s.pipeFile))[|a|] == x && (a + (s.pipeFile + [x]))[|a|] == s.pipeFile[0];
    }
  }

  /** The items a run accepts, in order. */
  function Accepted<T>(c: Settings, s: Store<T>, ops: seq<Op<T>>): seq<T>
    decreases |ops|
  {
    if ops == [] then []
    else (if ops[0].Put? && !TargetOf(c, s).Refused? then [ops[0].item] else []) + Accepted(c, Apply(c, s, ops[0]), ops[1..])
  }

  /** No item of the run overtakes items that wait for the file. */
  predicate NoneOvertakes<T>(c: Settings, s: Store<T>, ops: seq<Op<T>>)
    decreases |ops|
  {
    ops == [] || ((ops[0].Put? ==> !Overtakes(c, s)) && NoneOvertakes(c, Apply(c, s, ops[0]), ops[1..]))
  }

  /** Every run, any commits and rollbacks: database, file and queues together are the accepted items in acceptance order. */
  lemma {:induction false} RunKeepsOrder<T>(c: Settings, s: Store<T>, ops: seq<Op<T>>)
    requires Phased(s) && NoneOvertakes(c, s, ops)
    ensures Journal(Run(c, s, ops)) == Journal(s) + Accepted(c, s, ops) && Phased(Run(c, s, ops))
    decreases |ops|
  {
    hide Apply, Journal, Phased;
    if ops != [] {
      var t := Apply(c, s, ops[0]);
      PhasedStep(c, s, ops[0]);
      RunKeepsOrder(c, t, ops[1..]);
      if !ops[0].Put? {
        StepKeepsOrder(c, s, ops[0]);
      } else {
        PutAtEnd(c, s, ops[0].item);
      }
    }
  }

  lemma {:induction false} PutAtEnd<T>(c: Settings, s: Store<T>, x: T)
    requires !Overtakes(c, s)
    ensures Journal(Apply(c, s, Put(x))) == Journal(s) + if TargetOf(c, s).Refused? then [] else [x]
  {
  }

  /** So what the database and the file hold is always a beginning of the accepted sequence: no gap, no swap. */
  lemma {:induction false} StoredIsPrefix<T>(c: Settings, s: Store<T>, ops: seq<Op<T>>)
    requires Phased(s) && NoneOvertakes(c, s, ops) && Journal(s) == []
    ensures Run(c, s, ops).db + Run(c, s, ops).file <= Accepted(c, s, ops)
  {
    hide Run, Accepted, NoneOvertakes;
    RunKeepsOrder(c, s, ops);
    var t := Run(c, s, ops);
    assert [] + Accepted(c, s, ops) == Accepted(c, s, ops);
    assert Journal(t) == (t.db + t.file) + (t.cache + t.pipeDb + t.pipeFile);
  }

  // ---------- which items are accepted, and where they land ----------

  /** The file queue is the only one in use, and over its limit. */
  predicate Full<T>(c: Settings, s: Store<T>) {
    s.doneDb && |s.pipeFile| > c.maxQueueFile
  }

  /**
    An item is refused, and nothing changes, iff the file queue alone is in use and over its limit. Else it goes to the end
    of the file queue if that is the one in use or the database queue is over its limit, which starts the file thread; and
    to the end of the database queue otherwise.
   */
  lemma {:induction false} PutExact<T>(c: Settings, s: Store<T>, x: T)
    ensures var r := Apply(c, s, Put(x));
            if Full(c, s) then r == s
            else if s.doneDb then r == s.(pipeFile := s.pipeFile + [x])
            else if |s.pipeDb| > c.maxQueueDb then r == s.(pipeFile := s.pipeFile + [x], fileStarted := true)
            else r == s.(pipeDb := s.pipeDb + [x])
    ensures Accepted(c, s, [Put(x)]) == if Full(c, s) then [] else [x]
  {
    assert [Put(x)][1..] == [];
    assert Accepted(c, Apply(c, s, Put(x)), []) == [];
  }

  /** All items put, in order. */
  function Puts<T>(ops: seq<Op<T>>): seq<T> {
    if ops == [] then [] else (if ops[0].Put? then [ops[0].item] else []) + Puts(ops[1..])
  }

  predicate NeverFull<T>(c: Settings, s: Store<T>, ops: seq<Op<T>>)
    decreases |ops|
  {
    ops == [] || ((ops[0].Put? ==> !Full(c, s)) && NeverFull(c, Apply(c, s, ops[0]), ops[1..]))
  }

  /** Every run: the accepted items are all items put, if and only if the file queue is never found over its limit. */
  lemma {:induction false} AllAcceptedIff<T>(c: Settings, s: Store<T>, ops: seq<Op<T>>)
    ensures Accepted(c, s, ops) == Puts(ops) <==> NeverFull(c, s, ops)
    ensures |Accepted(c, s, ops)| <= |Puts(ops)|
    decreases |ops|
  {
    hide Apply;
    if ops != [] {
      AllAcceptedIff(c, Apply(c, s, ops[0]), ops[1..]);
      var a, p := Accepted(c, Apply(c, s, ops[0]), ops[1..]), Puts(ops[1..]);
      if ops[0].Put? {
        assert [ops[0].item] + a == [ops[0].item] + p <==> a == p by {
          assert ([ops[0].item] + a)[1..] == a && ([ops[0].item] + p)[1..] == p;
        }
      } else {
        assert [] + a == a && [] + p == p;
      }
    }
  }

  // ---------- the threads make progress ----------

  /**
    The database thread takes an item iff it is not ended, there is one, the connection is up and the cache is not over its
    limit. Below a full batch nothing is written; from a full batch on, a flush that commits everything leaves nothing cached.
   */
  lemma {:induction false} ReadExact<T>(c: Settings, s: Store<T>, k: nat)
    ensures var r := Apply(c, s, Read(k));
            if !s.handed && s.pipeDb != [] && s.connected && |s.cache| <= c.maxBatch then
              && r.pipeDb == s.pipeDb[1..]
              && (|s.cache| + 1 < c.batch || s.stopDb ==> r.cache == s.cache + [s.pipeDb[0]] && r.db == s.db)
              && (|s.cache| + 1 >= c.batch && !s.stopDb && k > |s.cache| ==> r.cache == [] && r.db == s.db + s.cache + [s.pipeDb[0]])
            else r == s
  {
    if s.pipeDb != [] {
      var t := s.(cache := s.cache + [s.pipeDb[0]], pipeDb := s.pipeDb[1..]);
      assert t.cache[..|t.cache|] == t.cache && t.cache[|t.cache|..] == [];
      assert s.db + (s.cache + [s.pipeDb[0]]) == s.db + s.cache + [s.pipeDb[0]];
    }
  }

  /** The cache never holds more than one item over its limit. */
  lemma {:induction false} CacheBounded<T>(c: Settings, s: Store<T>, ops: seq<Op<T>>)
    requires |s.cache| <= c.maxBatch + 1
    ensures |Run(c, s, ops).cache| <= c.maxBatch + 1
    decreases |ops|
  {
    hide Apply;
    if ops != [] {
      CacheBoundedStep(c, s, ops[0]);
      CacheBounded(c, Apply(c, s, ops[0]), ops[1..]);
    }
  }

  lemma {:induction false} CacheBoundedStep<T>(c: Settings, s: Store<T>, op: Op<T>)
    requires |s.cache| <= c.maxBatch + 1
    ensures |Apply(c, s, op).cache| <= c.maxBatch + 1
  {
    hide Flush;
    match op
    case Read(k) =>
      if s.pipeDb != [] {
        FlushShrinks(s.(cache := s.cache + [s.pipeDb[0]], pipeDb := s.pipeDb[1..]), k);
      }
    case Tick(k) => FlushShrinks(s, k);
    case _ =>
  }

  lemma {:induction false} FlushShrinks<T>(s: Store<T>, k: nat)
    ensures |Flush(s, k).cache| <= |s.cache|
  {
  }

  /** A file that could not be opened is never written, whatever the run; what was handed over stays in the file queue. */
  lemma {:induction false} ClosedFileKeeps<T>(c: Settings, s: Store<T>, ops: seq<Op<T>>)
    requires !s.fileOpen
    ensures Run(c, s, ops).file == s.file
    ensures s.handed ==> Run(c, s, ops).handed && s.pipeFile <= Run(c, s, ops).pipeFile
    decreases |ops|
  {
    hide ReadOne, Flush;
    if ops != [] {
      ClosedFileStep(c, s, ops[0]);
      ClosedFileKeeps(c, Apply(c, s, ops[0]), ops[1..]);
    }
  }

  lemma {:induction false} ClosedFileStep<T>(c: Settings, s: Store<T>, op: Op<T>)
    requires !s.fileOpen
    ensures var r := Apply(c, s, op);
            !r.fileOpen && r.file == s.file && (s.handed ==> r.handed && s.pipeFile <= r.pipeFile)
  {
  }

  /** One read and one flush for each of n items. */
  function Drain<T>(n: nat, k: nat): seq<Op<T>> {
    if n == 0 then [] else [Read(k), Tick(k)] + Drain(n - 1, k)
  }

  lemma {:induction false} ReadAndTick<T>(c: Settings, s: Store<T>, k: nat)
    requires s.connected && !s.stopDb && !s.handed && s.cache == [] && k > 0 && s.pipeDb != []
    ensures Apply(c, Apply(c, s, Read(k)), Tick(k)) == s.(db := s.db + [s.pipeDb[0]], pipeDb := s.pipeDb[1..])
  {
    var x := s.pipeDb[0];
    var none: seq<T> := [];
    assert none + [x] == [x] && [x][..1] == [x] && [x][1..] == none && none[..0] == none && none[0..] == none;
    assert s.db + [x] + none == s.db + [x];
    ReadExact(c, s, k);
  }

  lemma {:induction false} RunMore<T>(c: Settings, s: Store<T>, a: Op<T>, b: Op<T>, rest: seq<Op<T>>)
    ensures Run(c, s, [a, b] + rest) == Run(c, Apply(c, Apply(c, s, a), b), rest)
  {
    hide Apply;
    assert ([a, b] + rest)[1..] == [b] + rest && ([b] + rest)[1..] == rest;
    assert Run(c, Apply(c, s, a), [b] + rest) == Run(c, Apply(c, Apply(c, s, a), b), rest);
  }

  /** While commits succeed everything reaches the database, in order: nothing is stuck in cache or queue. */
  lemma {:induction false} HealthyDrain<T>(c: Settings, s: Store<T>, k: nat)
    requires s.connected && !s.stopDb && !s.handed && s.cache == [] && k > 0
    ensures Run(c, s, Drain(|s.pipeDb|, k)) == s.(db := s.db + s.pipeDb, pipeDb := [])
    decreases |s.pipeDb|
  {
    hide Apply;
    if s.pipeDb == [] {
      assert s.db + [] == s.db;
    } else {
      ReadAndTick(c, s, k);
      RunMore(c, s, Read(k), Tick(k), Drain(|s.pipeDb| - 1, k));
      HealthyDrain(c, s.(db := s.db + [s.pipeDb[0]], pipeDb := s.pipeDb[1..]), k);
      assert s.db + [s.pipeDb[0]] + s.pipeDb[1..] == s.db + s.pipeDb;
    }
  }

  function Writes<T>(n: nat): seq<Op<T>> {
    if n == 0 then [] else [Write] + Writes(n - 1)
  }

  lemma {:induction false} WritesAll<T>(c: Settings, s: Store<T>)
    requires s.handed && s.fileOpen
    ensures Run(c, s, Writes(|s.pipeFile|)) == s.(file := s.file + s.pipeFile, pipeFile := [])
    decreases |s.pipeFile|
  {
    if s.pipeFile == [] {
      assert s.file + [] == s.file;
    } else {
      var t := Apply(c, s, Write);
      WritesAll(c, t);
      assert s.file + [s.pipeFile[0]] + s.pipeFile[1..] == s.file + s.pipeFile;
      var ops: seq<Op<T>> := Writes(|s.pipeFile|);
      assert ops == [Write] + Writes(|s.pipeFile| - 1) && ops[1..] == Writes(|s.pipeFile| - 1);
    }
  }

  /** Once started, the file thread brings everything that waits to the file: cache, database queue, file queue. */
  lemma {:induction false} SpillReachesFile<T>(c: Settings, s: Store<T>)
    requires s.fileStarted && !s.handed && s.fileOpen
    ensures var waiting := s.cache + s.pipeDb + s.pipeFile;
            Run(c, s, [GiveUp, HandOver] + Writes(|waiting|))
            == s.(file := s.file + waiting, cache := [], pipeDb := [], pipeFile := [], stopDb := true, doneDb := true, handed := true)
  {
    var waiting := s.cache + s.pipeDb + s.pipeFile;
    var g := Apply(c, s, GiveUp);
    var h := Apply(c, g, HandOver);
    RunMore(c, s, GiveUp, HandOver, Writes(|waiting|));
    WritesAll(c, h);
  }

  // ---------- order is kept exactly when nothing overtakes ----------

  predicate Distinct<T(==)>(q: seq<T>) {
    forall i, j :: 0 <= i < j < |q| ==> q[i] != q[j]
  }

  ghost predicate Precedes<T>(q: seq<T>, x: T, y: T) {
    exists i, j :: 0 <= i < j < |q| && q[i] == x && q[j] == y
  }

  /** Where an accepted item enters the journal. */
  lemma {:induction false} PutInserts<T>(c: Settings, s: Store<T>, x: T)
    requires !TargetOf(c, s).Refused?
    ensures var a := s.db + s.file + s.cache + s.pipeDb;
            Journal(Apply(c, s, Put(x))) == if TargetOf(c, s).ToDb? then a + [x] + s.pipeFile else a + s.pipeFile + [x]
  {
  }

  lemma {:induction false} PrecedesInserted<T>(a: seq<T>, z: T, b: seq<T>, x: T, y: T)
    requires Precedes(a + b, x, y)
    ensures Precedes(a + [z] + b, x, y)
  {
    var q := a + b;
    var r := a + [z] + b;
    var i, j :| 0 <= i < j < |q| && q[i] == x && q[j] == y;
    var i', j' := if i < |a| then i else i + 1, if j < |a| then j else j + 1;
    assert r[i'] == x && r[j'] == y;
  }

  /** Once one item is before another in the journal, it stays before it. */
  lemma {:induction false} PrecedesStays<T>(c: Settings, s: Store<T>, ops: seq<Op<T>>, x: T, y: T)
    requires Phased(s) && Precedes(Journal(s), x, y)
    ensures Precedes(Journal(Run(c, s, ops)), x, y)
    decreases |ops|
  {
    hide Apply, Phased, Precedes, Journal;
    if ops != [] {
      PhasedStep(c, s, ops[0]);
      PrecedesStep(c, s, ops[0], x, y);
      PrecedesStays(c, Apply(c, s, ops[0]), ops[1..], x, y);
    }
  }

  lemma {:induction false} PrecedesStep<T>(c: Settings, s: Store<T>, op: Op<T>, x: T, y: T)
    requires Phased(s) && Precedes(Journal(s), x, y)
    ensures Precedes(Journal(Apply(c, s, op)), x, y)
  {
    hide Precedes, Phased;
    if !op.Put? {
      StepKeepsOrder(c, s, op);
    } else if !TargetOf(c, s).Refused? {
      var a := s.db + s.file + s.cache + s.pipeDb;
      PutInserts(c, s, op.item);
      if TargetOf(c, s).ToDb? {
        PrecedesInserted(a, op.item, s.pipeFile, x, y);
      } else {
        assert a + s.pipeFile + [] == a + s.pipeFile;
        PrecedesInserted(a + s.pipeFile, op.item, [], x, y);
        assert a + s.pipeFile + [op.item] + [] == a + s.pipeFile + [op.item];
      }
    }
  }

  /** An item that overtakes another is before it in the journal, but after it in acceptance order. */
  lemma {:induction false} OvertakenForGood<T>(c: Settings, s: Store<T>, x: T, ops: seq<Op<T>>)
    requires Phased(s) && Overtakes(c, s) && Distinct(Journal(s) + ([x] + Accepted(c, Apply(c, s, Put(x)), ops)))
    ensures Journal(Run(c, Apply(c, s, Put(x)), ops)) != Journal(s) + ([x] + Accepted(c, Apply(c, s, Put(x)), ops))
  {
    hide Run, Accepted, Apply, Phased;
    var t := Apply(c, s, Put(x));
    var a := s.db + s.file + s.cache + s.pipeDb;
    var y := s.pipeFile[0];
    PhasedStep(c, s, Put(x));
    PutInserts(c, s, x);
    assert Journal(t)[|a|] == x && Journal(t)[|a| + 1] == y;
    PrecedesStays(c, t, ops, x, y);
    var q := Journal(s) + ([x] + Accepted(c, t, ops));
    assert q[|a|] == y && q[|Journal(s)|] == x;
  }

  /** For distinct items: the stores and queues are the accepted items in acceptance order iff none overtook a waiting one. */
  lemma {:induction false} OrderKeptIff<T>(c: Settings, s: Store<T>, ops: seq<Op<T>>)
    requires Phased(s) && Distinct(Journal(s) + Accepted(c, s, ops))
    ensures Journal(Run(c, s, ops)) == Journal(s) + Accepted(c, s, ops) <==> NoneOvertakes(c, s, ops)
    decreases |ops|
  {
    hide Apply, Journal, Phased, Overtakes;
    if ops != [] {
      var t := Apply(c, s, ops[0]);
      PhasedStep(c, s, ops[0]);
      if !ops[0].Put? {
        StepKeepsOrder(c, s, ops[0]);
        assert Accepted(c, s, ops) == Accepted(c, t, ops[1..]);
        OrderKeptIff(c, t, ops[1..]);
      } else if Overtakes(c, s) {
        OvertakenForGood(c, s, ops[0].item, ops[1..]);
      } else {
        PutAtEnd(c, s, ops[0].item);
        var more := if TargetOf(c, s).Refused? then [] else [ops[0].item];
        assert Journal(s) + more + Accepted(c, t, ops[1..]) == Journal(s) + Accepted(c, s, ops);
        OrderKeptIff(c, t, ops[1..]);
      }
    }
  }

  // ---------- nothing lost, nothing doubled ----------

  /** Every run, overtaking or not: the stores and queues hold exactly the accepted items. */
  lemma {:induction false} RunConserves<T>(c: Settings, s: Store<T>, ops: seq<Op<T>>)
    requires Phased(s)
    ensures var t := Run(c, s, ops);
            && Phased(t) && t.fileOpen == s.fileOpen
            && multiset(Journal(t)) == multiset(Journal(s)) + multiset(Accepted(c, s, ops))
    decreases |ops|
  {
    hide Apply, Journal, Phased;
    if ops != [] {
      var t := Apply(c, s, ops[0]);
      PhasedStep(c, s, ops[0]);
      StepConserves(c, s, ops[0]);
      RunConserves(c, t, ops[1..]);
    }
  }

  lemma {:induction false} StepConserves<T>(c: Settings, s: Store<T>, op: Op<T>)
    requires Phased(s)
    ensures multiset(Journal(Apply(c, s, op)))
         == multiset(Journal(s)) + if op.Put? && !TargetOf(c, s).Refused? then multiset{op.item} else multiset{}
  {
    hide Apply, Phased, TargetOf;
    if !op.Put? {
      StepKeepsOrder(c, s, op);
    } else if TargetOf(c, s).Refused? {
      RefusedAlone(c, s, op.item);
    } else {
      PutInserts(c, s, op.item);
    }
  }

  lemma {:induction false} RefusedAlone<T>(c: Settings, s: Store<T>, x: T)
    requires TargetOf(c, s).Refused?
    ensures Apply(c, s, Put(x)) == s
  {
  }

  // ---------- the flush loop ----------

  predicate Flushing<T>(s: Store<T>) {
    s.cache != [] && !s.stopDb
  }

  /** The loop of a flush, every transaction committed, after at most n turns. */
  function Turns<T>(s: Store<T>, batch: nat, n: nat): Store<T>
    decreases n
  {
    if n == 0 || !Flushing(s) then s else Turns(Committed(s, Min(batch, |s.cache|)), batch, n - 1)
  }

  /** The loop ends if and only if the batch size is positive or there is nothing to flush: a batch of zero goes on for ever. */
  lemma {:induction false} FlushEndsIff<T>(s: Store<T>, batch: nat)
    ensures (exists n: nat :: !Flushing(Turns(s, batch, n))) <==> batch > 0 || !Flushing(s)
  {
    if batch > 0 {
      FlushEnds(s, batch);
    } else {
      forall n: nat ensures Turns(s, batch, n) == s {
        ZeroBatchStays(s, n);
      }
      assert Turns(s, batch, 0) == s;
    }
  }

  lemma {:induction false} FlushEnds<T>(s: Store<T>, batch: nat)
    requires batch > 0
    ensures !Flushing(Turns(s, batch, |s.cache|))
    decreases |s.cache|
  {
    if Flushing(s) {
      var t := Committed(s, Min(batch, |s.cache|));
      FlushEnds(t, batch);
      MoreTurns(t, batch, |t.cache|, |s.cache| - 1);
    }
  }

  lemma {:induction false} MoreTurns<T>(s: Store<T>, batch: nat, n: nat, m: nat)
    requires n <= m && !Flushing(Turns(s, batch, n))
    ensures !Flushing(Turns(s, batch, m))
    decreases n
  {
    if Flushing(s) {
      MoreTurns(Committed(s, Min(batch, |s.cache|)), batch, n - 1, m - 1);
    }
  }

  lemma {:induction false} ZeroBatchStays<T>(s: Store<T>, n: nat)
    ensures Turns(s, 0, n) == s
    decreases n
  {
    if n > 0 && Flushing(s) {
      assert Committed(s, 0) == s by { assert s.cache[..0] == [] && s.cache[0..] == s.cache && s.db + [] == s.db; }
      ZeroBatchStays(s, n - 1);
    }
  }

  // ---------- shutdown ----------

  function Reversed<T>(q: seq<T>): seq<T> {
    if q == [] then [] else Reversed(q[1..]) + [q[0]]
  }

  lemma {:induction false} ReversedMultiset<T>(q: seq<T>)
    ensures multiset(Reversed(q)) == multiset(q)
  {
    if q != [] {
      ReversedMultiset(q[1..]);
      assert q == [q[0]] + q[1..];
    }
  }

  /** What the shutdown tries to bring to the database: the cache, turned around, before the queue. */
  function Pending<T>(s: Store<T>): seq<T> {
    Reversed(s.cache) + s.pipeDb
  }

  /**
    What the shutdown's flush leaves in the cache when k pending items went through: with the database given up all k of
    them; else the item whose commit failed, which is also put back into the queue.
   */
  function Leftover<T>(s: Store<T>, k: nat): seq<T>
    requires k <= |Pending(s)|
  {
    var q := Pending(s);
    if s.stopDb then q[..k] else if s.connected && k < |q| then [q[k]] else []
  }

  /** A file thread that has started but not handed over yet; the shutdown waits for it, and so for its hand-over. */
  predicate Joined<T>(s: Store<T>) {
    s.fileStarted && !s.handed
  }

  /**
    The stores after a shutdown in which the first k pending items went through the database path: committed, unless the
    database had been given up. The rest goes to the file, turned around again, after what a joined file thread finds in
    the cache.
   */
  function Stopped<T>(s: Store<T>, k: nat): Store<T>
    requires k <= |Pending(s)|
  {
    var q := Pending(s);
    var found := if Joined(s) then Leftover(s, k) else [];
    s.(db := if s.stopDb then s.db else s.db + q[..k],
       file := if s.fileOpen then s.file + (found + Reversed(q[k..]) + s.pipeFile) else s.file,
       cache := [], pipeDb := [], pipeFile := [])
  }

  /** The file after a shutdown, joined up the other way. */
  lemma {:induction false} StoppedFile<T>(s: Store<T>, k: nat)
    requires k <= |Pending(s)|
    ensures var found := if Joined(s) then Leftover(s, k) else [];
            Stopped(s, k).file == if s.fileOpen then s.file + (found + (Reversed(Pending(s)[k..]) + s.pipeFile)) else s.file
  {
    var found := if Joined(s) then Leftover(s, k) else [];
    assert found + (Reversed(Pending(s)[k..]) + s.pipeFile) == found + Reversed(Pending(s)[k..]) + s.pipeFile;
  }

  /** How far the database path can get: nowhere without a connection; up to the cache limit once it is given up. */
  predicate Reach<T>(c: Settings, s: Store<T>, k: nat) {
    && k <= |Pending(s)|
    && (!s.connected ==> k == 0)
    && (s.connected && s.stopDb ==> k == Min(|Pending(s)|, c.maxBatch + 1))
  }

  /** Everything a store holds, stored or waiting. */
  ghost function Contents<T>(s: Store<T>): multiset<T> {
    multiset(s.db + s.file) + multiset(s.cache + s.pipeDb + s.pipeFile)
  }

  lemma {:induction false} PendingContents<T>(s: Store<T>, k: nat)
    requires k <= |Pending(s)|
    ensures var q := Pending(s);
            Contents(s) == multiset(s.db) + multiset(s.file) + multiset(q[..k]) + multiset(Reversed(q[k..])) + multiset(s.pipeFile)
  {
    var q := Pending(s);
    ReversedMultiset(s.cache);
    ReversedMultiset(q[k..]);
    assert multiset(q) == multiset(s.cache) + multiset(s.pipeDb);
    assert q == q[..k] + q[k..];
  }

  /** Exactly what a shutdown stores: everything, less what a given-up database swallows, plus what a joined file thread doubles. */
  lemma {:induction false} StoppedContents<T>(s: Store<T>, k: nat)
    requires k <= |Pending(s)| && s.fileOpen
    ensures var stored := multiset(Stopped(s, k).db + Stopped(s, k).file);
            if s.stopDb && !Joined(s) then stored + multiset(Pending(s)[..k]) == Contents(s)
            else if !s.stopDb && Joined(s) then stored == Contents(s) + multiset(Leftover(s, k))
            else stored == Contents(s)
  {
    hide Pending, Reversed, Contents;
    PendingContents(s, k);
    var q := Pending(s);
    var found := if Joined(s) then Leftover(s, k) else [];
    assert multiset(found + Reversed(q[k..]) + s.pipeFile) == multiset(found) + multiset(Reversed(q[k..])) + multiset(s.pipeFile);
    if !s.stopDb {
      assert multiset(s.db + q[..k]) == multiset(s.db) + multiset(q[..k]);
    }
  }

  /** Turned around: the last first. */
  lemma {:induction false} ReversedAt<T>(q: seq<T>, k: nat)
    requires k < |q|
    ensures |Reversed(q)| == |q| && Reversed(q)[k] == q[|q| - 1 - k]
  {
    if |q| > 1 {
      ReversedAt(q[1..], if k < |q| - 1 then k else 0);
    }
  }

  lemma {:induction false} ReversedTwice<T>(a: seq<T>, b: seq<T>)
    ensures Reversed(a + b) == Reversed(b) + Reversed(a) && Reversed(Reversed(a)) == a
  {
    if a == [] {
      assert [] + b == b && Reversed(b) + [] == Reversed(b);
    } else {
      ReversedTwice(a[1..], b);
      assert (a + b)[0] == a[0] && (a + b)[1..] == a[1..] + b;
      ReversedSnoc(Reversed(a[1..]), a[0]);
    }
  }

  /**
    The order a shutdown leaves, with no file thread to join and the database not given up: if it takes everything, the cache
    turned around and then the queue; if it takes nothing, the file gets the queue turned around and then the cache as it was.
   */
  lemma {:induction false} ShutdownOrder<T>(s: Store<T>)
    requires s.fileOpen && !s.stopDb && !Joined(s)
    ensures Stopped(s, |Pending(s)|).db == s.db + Reversed(s.cache) + s.pipeDb && Stopped(s, |Pending(s)|).file == s.file + s.pipeFile
    ensures Stopped(s, 0).db == s.db && Stopped(s, 0).file == s.file + Reversed(s.pipeDb) + s.cache + s.pipeFile
  {
    var q := Pending(s);
    ReversedTwice(Reversed(s.cache), s.pipeDb);
    ReversedTwice(s.cache, []);
    TakenAll(s.db, Reversed(s.cache), s.pipeDb);
    TakenNone(s.file, Reversed(s.pipeDb), s.cache, s.pipeFile);
    assert q[|q|..] == [] && s.file + ([] + [] + s.pipeFile) == s.file + s.pipeFile && q[0..] == q && q[..0] == [];
  }

  lemma {:induction false} TakenAll<T>(a: seq<T>, b: seq<T>, c: seq<T>)
    ensures a + (b + c)[..|b + c|] == a + b + c
  {
  }

  lemma {:induction false} TakenNone<T>(a: seq<T>, b: seq<T>, c: seq<T>, d: seq<T>)
    ensures a + ([] + (b + c) + d) == a + b + c + d
  {
  }

  /**
    From any state, with the file open: a shutdown loses and doubles nothing iff, with the database given up, a file thread
    is joined or nothing went through; and otherwise, no file thread is joined with a failed commit in the cache.
   */
  lemma {:induction false} ShutdownExact<T>(c: Settings, s: Store<T>, k: nat)
    requires s.fileOpen && Reach(c, s, k)
    ensures multiset(Stopped(s, k).db + Stopped(s, k).file) == Contents(s)
       <==> if s.stopDb then Joined(s) || k == 0 else !(Joined(s) && s.connected && k < |Pending(s)|)
  {
    hide Stopped, Pending, Contents;
    StoppedContents(s, k);
    var stored := multiset(Stopped(s, k).db + Stopped(s, k).file);
    MoreIsMore(stored, Pending(s)[..k]);
    MoreIsMore(Contents(s), Leftover(s, k));
  }

  /** Adding items changes a multiset exactly if there are any. */
  lemma {:induction false} MoreIsMore<T>(all: multiset<T>, q: seq<T>)
    ensures all + multiset(q) == all <==> q == []
  {
    if q != [] {
      assert q[0] in multiset(q);
      assert (all + multiset(q))[q[0]] == all[q[0]] + multiset(q)[q[0]];
    }
  }

  /**
    Every run from a fresh store, then a shutdown: database and file hold exactly the accepted items, unless a commit fails
    during the shutdown while a file thread has been started and has not given the database up yet; that item is stored twice.
   */
  lemma {:induction false} ShutdownOfRun<T>(c: Settings, ops: seq<Op<T>>, k: nat)
    requires Reach(c, Run(c, Fresh(), ops), k)
    ensures var t := Run(c, Fresh(), ops);
            && (multiset(Stopped(t, k).db + Stopped(t, k).file) == multiset(Accepted(c, Fresh(), ops))
                <==> !(t.connected && t.fileStarted && !t.stopDb && k < |Pending(t)|))
  {
    hide Run, Accepted, Stopped, Contents;
    var s: Store<T> := Fresh();
    var t := Run(c, s, ops);
    RunConserves(c, s, ops);
    assert multiset(Journal(t)) == multiset(Accepted(c, s, ops));
    ShutdownExact(c, t, k);
    JournalContents(t);
  }

  /** With no file thread at work (not started, or past its hand-over) a shutdown stores exactly the accepted items. */
  lemma {:induction false} QuietShutdown<T>(c: Settings, ops: seq<Op<T>>, k: nat)
    requires var t := Run(c, Fresh(), ops);
             Reach(c, t, k) && (t.fileStarted ==> t.handed)
    ensures var t := Run(c, Fresh(), ops);
            multiset(Stopped(t, k).db + Stopped(t, k).file) == multiset(Accepted(c, Fresh(), ops))
  {
    hide Run, Accepted, Stopped, Reach;
    RunConserves(c, Fresh(), ops);
    ShutdownOfRun(c, ops, k);
  }

  /** Whatever happens, a shutdown after a run loses nothing: every accepted item is stored at least once. */
  lemma {:induction false} ShutdownLosesNothing<T>(c: Settings, ops: seq<Op<T>>, k: nat)
    requires Reach(c, Run(c, Fresh(), ops), k)
    ensures var t := Run(c, Fresh(), ops);
            multiset(Accepted(c, Fresh(), ops)) <= multiset(Stopped(t, k).db + Stopped(t, k).file)
  {
    hide Run, Accepted, Stopped, Contents;
    var s: Store<T> := Fresh();
    var t := Run(c, s, ops);
    RunConserves(c, s, ops);
    StoppedContents(t, k);
    JournalContents(t);
    assert multiset(Journal(t)) == multiset(Accepted(c, s, ops));
    assert t.stopDb && !Joined(t) ==> Pending(t)[..k] == [];
  }

  lemma {:induction false} JournalContents<T>(s: Store<T>)
    ensures Contents(s) == multiset(Journal(s))
  {
  }

  /** A run that stores its item twice: its commit fails, which starts the file thread, and fails again in the shutdown. */
  lemma {:induction false} ShutdownDoubles<T>(c: Settings, x: T)
    requires c.batch > 0
    ensures var ops := [Put(x), Read(0), Tick(0)];
            var t := Run(c, Fresh(), ops);
            && Accepted(c, Fresh(), ops) == [x] && Reach(c, t, 0) && Stopped(t, 0).db == [] && Stopped(t, 0).file == [x, x]
  {
    var s: Store<T> := Fresh();
    var s1 := Apply(c, s, Put(x));
    var s2 := Apply(c, s1, Read(0));
    var t := Apply(c, s2, Tick(0));
    assert s2 == s.(cache := [x]);
    assert t == s.(cache := [x], fileStarted := true);
    RunThree(c, s, Put(x), Read(0), Tick(0));
    assert [x][1..] == [] && Reversed<T>([]) == [];
    assert Reversed([x]) == [x];
    assert Pending(t) == [x];
    assert [x][0..] == [x] && [] + ([x] + [x] + []) == [x, x];
  }

  lemma {:induction false} RunThree<T>(c: Settings, s: Store<T>, a: Op<T>, b: Op<T>, d: Op<T>)
    ensures Run(c, s, [a, b, d]) == Apply(c, Apply(c, Apply(c, s, a), b), d)
    ensures a.Put? && !b.Put? && !d.Put? && !TargetOf(c, s).Refused? ==> Accepted(c, s, [a, b, d]) == [a.item]
  {
    hide Apply, TargetOf;
    var s1 := Apply(c, s, a);
    var s2 := Apply(c, s1, b);
    var s3 := Apply(c, s2, d);
    assert [a, b, d][1..] == [b, d] && [b, d][1..] == [d] && [d][1..] == [];
    assert Run(c, s3, []) == s3 && Accepted(c, s3, []) == [];
    assert Run(c, s2, [d]) == s3 && Run(c, s1, [b, d]) == s3;
    if !b.Put? && !d.Put? {
      assert Accepted(c, s2, [d]) == [] && Accepted(c, s1, [b, d]) == [];
    }
  }

  /** A run in which an item overtakes: the first waits for the database, the second for the file; then the queue has room again. */
  lemma {:induction false} OvertakingRun<T>(c: Settings, x: T, y: T)
    requires c.maxQueueDb == 0 && c.batch > 0
    ensures Overtakes(c, Run(c, Fresh(), [Put(x), Put(y), Read(1)]))
  {
    var s: Store<T> := Fresh();
    RunThree(c, s, Put(x), Put(y), Read(1));
    assert Apply(c, s, Put(x)) == s.(pipeDb := [x]);
    assert Apply(c, Apply(c, s, Put(x)), Put(y)) == s.(pipeDb := [x], pipeFile := [y], fileStarted := true);
  }

  lemma {:induction false} ReversedSnoc<T>(q: seq<T>, x: T)
    ensures Reversed(q + [x]) == [x] + Reversed(q)
  {
    if q == [] {
      assert (q + [x])[1..] == [];
    } else {
      ReversedSnoc(q[1..], x);
      assert (q + [x])[1..] == q[1..] + [x];
    }
  }

  lemma PendingIs<T>(s: Store<T>)
    ensures Pending(s) == Reversed(s.cache) + s.pipeDb
  {
  }

  /** One item further along a queue. */
  lemma {:induction false} DrainNext<T>(q: seq<T>, k: nat, done: seq<T>)
    requires k < |q|
    ensures q[k..][0] == q[k] && q[k..][1..] == q[k + 1..] && [q[k]] + q[k + 1..] == q[k..]
    ensures q[..k] + [q[k]] == q[..k + 1] && done + q[..k] + [q[k]] == done + q[..k + 1]
  {
  }

  /** A flush of a single cached item commits it or leaves it. */
  lemma {:induction false} FlushOne<T>(s: Store<T>, x: T, k: nat)
    requires s.cache == [x] && !s.stopDb
    ensures Flush(s, k) == if k == 0 then s else s.(db := s.db + [x], cache := [])
    ensures forall n :: Flush(s.(db := s.db + [x], cache := []), n) == s.(db := s.db + [x], cache := [])
  {
    if k == 0 {
      assert s.cache[..0] == [] && s.cache[0..] == s.cache && s.db + [] == s.db;
    } else {
      assert s.cache[..1] == [x] && s.cache[1..] == [];
    }
  }

  /** Two flushes in a row are one. */
  lemma {:induction false} FlushTwice<T>(s: Store<T>, k: nat, n: nat)
    requires k <= |s.cache| && n <= |Flush(s, k).cache|
    ensures Flush(Flush(s, k), n) == Flush(s, if s.stopDb then 0 else k + n)
  {
    if !s.stopDb {
      assert s.cache[..k] + s.cache[k..][..n] == s.cache[..k + n];
      assert s.cache[k..][n..] == s.cache[k + n..];
      assert s.db + s.cache[..k] + s.cache[k..][..n] == s.db + s.cache[..k + n];
    }
  }

  class ChannelStorage<T> {
    const settings: Settings
    var db: seq<T>
    var file: seq<T>
    var cache: seq<T>
    var pipeDb: seq<T>
    var pipeFile: seq<T>
    var connected: bool
    var fileOpen: bool
    var stopDb: bool
    var doneDb: bool
    var fileStarted: bool
    var handed: bool

    ghost function View(): Store<T>
      reads this
    {
      Store(db, file, cache, pipeDb, pipeFile, connected, fileOpen, stopDb, doneDb, fileStarted, handed)
    }

    constructor (settings: Settings)
      ensures View() == Fresh() && Phased(View()) && this.settings == settings
    {
      this.settings := settings;
      db, file, cache, pipeDb, pipeFile := [], [], [], [], [];
      connected, fileOpen, stopDb, doneDb, fileStarted, handed := true, true, false, false, false, false;
    }

    /** A flush ends: the batch size is positive, or nothing is ever flushed. */
    predicate MayFlush()
      reads this
    {
      settings.batch > 0 || stopDb || !connected
    }

    method DoPersist(x: T) returns (ok: bool)
      modifies `pipeDb, `pipeFile, `fileStarted
      ensures View() == Apply(settings, old(View()), Put(x))
      ensures ok <==> !(old(doneDb) && |old(pipeFile)| > settings.maxQueueFile)
      ensures !ok ==> View() == old(View())
      ensures ok && (old(doneDb) || |old(pipeDb)| > settings.maxQueueDb) ==> pipeFile == old(pipeFile) + [x] && pipeDb == old(pipeDb)
      ensures ok && !old(doneDb) && |old(pipeDb)| <= settings.maxQueueDb ==> pipeDb == old(pipeDb) + [x] && pipeFile == old(pipeFile)
    {
      if doneDb {
        if |pipeFile| > settings.maxQueueFile {
          return false;
        }
        pipeFile := pipeFile + [x];
        return true;
      }
      if |pipeDb| > settings.maxQueueDb {
        pipeFile := pipeFile + [x];
        fileStarted := true;
      } else {
        pipeDb := pipeDb + [x];
      }
      ok := true;
    }

    /** Commits batch after batch until the cache is empty, a transaction is rolled back, or the database is given up. */
    method DoFlushToDb() returns (ok: bool, ghost k: nat)
      requires settings.batch > 0 || cache == [] || stopDb
      modifies `db, `cache
      ensures k <= |old(cache)| && View() == Flush(old(View()), k)
      ensures ok <==> cache == [] || stopDb
    {
      k := 0;
      assert cache[0..] == cache && db + cache[..0] == db;
      while cache != [] && !stopDb
        invariant k <= |old(cache)| && cache == old(cache)[k..]
        invariant db == if stopDb then old(db) else old(db) + old(cache)[..k]
        invariant stopDb ==> k == 0
      {
        var count := if settings.batch < |cache| then settings.batch else |cache|;
        var committed: bool := *;
        if !committed {
          return false, k;
        }
        assert old(cache)[..k] + old(cache)[k..][..count] == old(cache)[..k + count];
        db := db + cache[..count];
        cache := cache[count..];
        k := k + count;
      }
      ok := true;
    }

    /** Five attempts, 100 ms apart. */
    method FlushToDb() returns (ok: bool, ghost k: nat)
      requires settings.batch > 0 || cache == [] || stopDb
      modifies `db, `cache
      ensures k <= |old(cache)| && View() == Flush(old(View()), k)
      ensures ok <==> cache == [] || stopDb
    {
      k := 0;
      ok := false;
      var i := 0;
      assert cache[0..] == cache && db + cache[..0] == db;
      while i < 5 && !ok
        invariant k <= |old(cache)| && View() == Flush(old(View()), k) && i <= 5
        invariant i == 0 ==> !ok && View() == old(View())
        invariant i > 0 ==> (ok <==> cache == [] || stopDb)
      {
        ghost var before, b := View(), k;
        ghost var n;
        ok, n := DoFlushToDb();
        FlushTwice(old(View()), b, n);
        k := if stopDb then 0 else b + n;
        i := i + 1;
      }
    }

    /** One item into the cache, and a flush once a batch is full; false leaves everything as it was. */
    method PersistToDb(x: T) returns (ok: bool, ghost k: nat)
      requires MayFlush()
      modifies `db, `cache
      ensures ok <==> connected && |old(cache)| <= settings.maxBatch
      ensures !ok ==> View() == old(View())
      ensures ok ==> var t := old(View()).(cache := old(cache) + [x]);
                     View() == if |t.cache| < settings.batch then t else Flush(t, k)
    {
      k := 0;
      if !connected || |cache| > settings.maxBatch {
        return false, 0;
      }
      cache := cache + [x];
      if |cache| >= settings.batch {
        var _, n := FlushToDb();
        k := n;
      }
      ok := true;
    }

    /** One turn of the database thread's inner loop. */
    method DbThreadRead() returns (ghost k: nat)
      requires MayFlush()
      modifies `db, `cache, `pipeDb
      ensures View() == Apply(settings, old(View()), Read(k))
    {
      k := 0;
      if !handed && pipeDb != [] {
        var ok, n := PersistToDb(pipeDb[0]);
        k := n;
        if ok {
          pipeDb := pipeDb[1..];
        }
      }
    }

    /** The flush of the database thread every 100 ms. */
    method DbThreadTick() returns (ghost k: nat)
      requires settings.batch > 0 || cache == [] || stopDb
      modifies `db, `cache, `fileStarted
      ensures View() == Apply(settings, old(View()), Tick(k))
    {
      k := 0;
      if !handed {
        var ok, n := FlushToDb();
        k := n;
        if !ok {
          fileStarted := true;
        }
      }
    }

    /** The start of the file thread: the database is given up, and its thread told to end. */
    method FileThreadGiveUp()
      modifies `stopDb, `doneDb
      ensures View() == Apply(settings, old(View()), GiveUp)
    {
      if fileStarted && !handed {
        stopDb := true;
        doneDb := true;
      }
    }

    /** The hand-over: queue and cache are pushed, back to front, before whatever waits for the file. */
    method FileThreadHandOver()
      modifies `handed, `pipeDb, `cache, `pipeFile
      ensures View() == Apply(settings, old(View()), HandOver)
    {
      if !stopDb || handed {
        return;
      }
      PushAllFront(pipeDb);
      pipeDb := [];
      PushAllFront(cache);
      assert cache + (old(pipeDb) + old(pipeFile)) == cache + old(pipeDb) + old(pipeFile);
      cache := [];
      handed := true;
    }

    /** Pushes items in front of the file queue, last one first, so that they keep their order. */
    method PushAllFront(items: seq<T>)
      modifies `pipeFile
      ensures pipeFile == items + old(pipeFile)
    {
      var i := |items|;
      assert items[i..] + pipeFile == pipeFile;
      while i > 0
        invariant 0 <= i <= |items| && pipeFile == items[i..] + old(pipeFile)
      {
        i := i - 1;
        assert [items[i]] + (items[i + 1..] + old(pipeFile)) == items[i..] + old(pipeFile);
        pipeFile := [items[i]] + pipeFile;
      }
      assert items[0..] == items;
    }

    method FileThreadWrite()
      modifies `file, `pipeFile
      ensures View() == Apply(settings, old(View()), Write)
    {
      if handed && fileOpen && pipeFile != [] {
        file := file + [pipeFile[0]];
        pipeFile := pipeFile[1..];
      }
    }

    // ---------- shutdown ----------

    /** Brings cache and queue to the database one by one; what is left goes to the file queue. */
    method FlushDbCache() returns (ghost k: nat)
      requires MayFlush()
      modifies `db, `cache, `pipeDb, `pipeFile
      ensures Reach(settings, old(View()), k)
      ensures var s, q := old(View()), Pending(old(View()));
              && db == (if stopDb then s.db else s.db + q[..k])
              && pipeFile == Reversed(q[k..]) + s.pipeFile && pipeDb == [] && cache == Leftover(s, k)
    {
      hide Pending, Reversed;
      ghost var q := Pending(View());
      PendingIs(View());
      pipeDb := TurnedOnto(cache, pipeDb);
      cache := [];
      assert pipeDb == q;
      k := DrainToDb();
      pipeFile := TurnedOnto(pipeDb, pipeFile);
      pipeDb := [];
    }

    /** Pushes items in front of a queue in their own order, which turns them around. */
    static method TurnedOnto(items: seq<T>, queue: seq<T>) returns (r: seq<T>)
      ensures r == Reversed(items) + queue
    {
      r := queue;
      var i := 0;
      assert items[..0] == [] && Reversed<T>([]) + queue == queue;
      while i < |items|
        invariant i <= |items| && r == Reversed(items[..i]) + queue
      {
        ReversedSnoc(items[..i], items[i]);
        assert items[..i] + [items[i]] == items[..i + 1];
        r := [items[i]] + r;
        i := i + 1;
      }
      assert items[..i] == items;
    }

    /** The drain loop of the shutdown: from an empty cache, item by item, until one does not get through. */
    method DrainToDb() returns (ghost k: nat)
      requires MayFlush() && cache == []
      modifies `db, `cache, `pipeDb
      ensures k <= |old(pipeDb)| && pipeDb == old(pipeDb)[k..]
      ensures db == if stopDb then old(db) else old(db) + old(pipeDb)[..k]
      ensures !connected ==> k == 0
      ensures connected && stopDb ==> k == Min(|old(pipeDb)|, settings.maxBatch + 1)
      ensures cache == if stopDb then old(pipeDb)[..k] else if connected && k < |old(pipeDb)| then [old(pipeDb)[k]] else []
    {
      ghost var q := pipeDb;
      k := 0;
      assert db + q[..0] == db && q[..0] == [];
      while pipeDb != []
        invariant k <= |q| && pipeDb == q[k..]
        invariant db == if stopDb then old(db) else old(db) + q[..k]
        invariant !connected ==> k == 0
        invariant cache == if stopDb then q[..k] else []
        invariant k <= settings.maxBatch + 1 || !stopDb
      {
        DrainNext(q, k, old(db));
        var item := pipeDb[0];
        pipeDb := pipeDb[1..];
        var through := DrainOne(item);
        if !through {
          pipeDb := [item] + pipeDb;
          return;
        }
        k := k + 1;
      }
    }

    /** One item through persistToDb and flushToDb. */
    method DrainOne(item: T) returns (through: bool)
      requires MayFlush() && (!stopDb ==> cache == [])
      modifies `db, `cache
      ensures through ==> connected && db == (if stopDb then old(db) else old(db) + [item])
      ensures through ==> cache == if stopDb then old(cache) + [item] else []
      ensures !through ==> db == old(db) && cache == if connected && !stopDb then [item] else old(cache)
      ensures stopDb ==> (through <==> connected && |old(cache)| <= settings.maxBatch)
    {
      ghost var s := View();
      var ok, k := PersistToDb(item);
      if !ok {
        return false;
      }
      ghost var t, u := s.(cache := s.cache + [item]), View();
      var flushed, n := FlushToDb();
      if !stopDb {
        assert t.cache == [item];
        FlushOne(t, item, k);
        FlushOne(t, item, n);
      }
      through := flushed;
    }

    method FlushFileCache()
      modifies `file, `pipeFile
      ensures pipeFile == [] && file == if fileOpen then old(file) + old(pipeFile) else old(file)
    {
      ghost var k := 0;
      assert file + pipeFile[..0] == file;
      while pipeFile != []
        invariant k <= |old(pipeFile)| && pipeFile == old(pipeFile)[k..]
        invariant file == if fileOpen then old(file) + old(pipeFile)[..k] else old(file)
      {
        var item := pipeFile[0];
        pipeFile := pipeFile[1..];
        if fileOpen {
          assert old(file) + old(pipeFile)[..k] + [item] == old(file) + old(pipeFile)[..k + 1];
          file := file + [item];
        }
        k := k + 1;
      }
      assert old(pipeFile)[..k] == old(pipeFile);
    }

    /** Waits for the file thread, and so for its hand-over: what is in the cache goes before the file queue. */
    method JoinFileThread()
      requires pipeDb == []
      modifies `stopDb, `doneDb, `handed, `pipeDb, `cache, `pipeFile
      ensures pipeFile == (if old(Joined(View())) then old(cache) else []) + old(pipeFile)
    {
      if fileStarted && !handed {
        FileThreadGiveUp();
        FileThreadHandOver();
        assert cache + [] + old(pipeFile) == cache + old(pipeFile);
      }
    }

    /** The shutdown: the database thread has ended; the file thread is waited for before the file queue is emptied. */
    method Stop() returns (ghost k: nat)
      requires MayFlush()
      modifies this
      ensures Reach(settings, old(View()), k)
      ensures View() == Stopped(old(View()), k).(connected := false, stopDb := false, doneDb := false, fileStarted := false, handed := false)
    {
      hide Pending, Reversed, Leftover;
      k := FlushDbCache();
      JoinFileThread();
      FlushFileCache();
      StoppedFile(old(View()), k);
      cache, pipeDb := [], [];
      connected, stopDb, doneDb, fileStarted, handed := false, false, false, false, false;
    }
  }
}
