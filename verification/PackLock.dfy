/** Packers working at the same time. Each transaction takes a lock for a pick list and the hash of an
    item, reads what was picked, reads what is boxed, inserts, and keeps its locks until it ends. */
module PackLock {

  datatype Key = Key(list: nat, item: string)

  /** A packer's transaction is between assignments, or inside one. */
  datatype Stage =
    | Ready
    | Locked(key: Key, q: real)
    | KnowsPicked(key: Key, q: real, ceiling: real)
    | KnowsBoxed(key: Key, q: real, ceiling: real, packed: real)

  datatype Insert = Insert(key: Key, q: real)

  datatype Packer = Packer(held: set<Key>, inserted: seq<Insert>, stage: Stage)

  const IDLE := Packer({}, [], Ready)

  /** Committed quantities, which everybody sees, and the packers' transactions. */
  datatype System = System(picked: map<Key, real>, boxed: map<Key, real>, packers: seq<Packer>)

  datatype Step =
    | Lock(p: nat, key: Key, q: real)
    | ReadPicked(p: nat)
    | ReadBoxed(p: nat)
    | TryInsert(p: nat)
    | Commit(p: nat)
    | Abort(p: nat)
    | Pick(key: Key, q: real)
    | Reverse(key: Key, q: real)

  function At(m: map<Key, real>, k: Key): real { if k in m then m[k] else 0.0 }

  function Add(m: map<Key, real>, k: Key, q: real): map<Key, real> { m[k := At(m, k) + q] }

  /** What a transaction has inserted for a key and only it can see so far. */
  function Own(inserted: seq<Insert>, k: Key): real {
    if |inserted| == 0 then 0.0
    else
      var last := inserted[|inserted| - 1];
      Own(inserted[..|inserted| - 1], k) + if last.key == k then last.q else 0.0
  }

  function AddAll(m: map<Key, real>, inserted: seq<Insert>): map<Key, real> {
    if |inserted| == 0 then m
    else
      var last := inserted[|inserted| - 1];
      Add(AddAll(m, inserted[..|inserted| - 1]), last.key, last.q)
  }

  /** Two keys share a lock when they agree on the list and on the item's hash. */
  predicate Clash(hash: string -> nat, a: Key, b: Key) { a.list == b.list && hash(a.item) == hash(b.item) }

  ghost predicate Free(hash: string -> nat, packers: seq<Packer>, p: nat, key: Key) {
    forall r: nat, k: Key :: r < |packers| && r != p && k in packers[r].held ==> !Clash(hash, k, key)
  }

  predicate WellTimed(s: System, step: Step) {
    match step
    case Lock(p, key, q) => p < |s.packers| && s.packers[p].stage.Ready? && q > 0.0
    case ReadPicked(p) => p < |s.packers| && s.packers[p].stage.Locked?
    case ReadBoxed(p) => p < |s.packers| && s.packers[p].stage.KnowsPicked?
    case TryInsert(p) => p < |s.packers| && s.packers[p].stage.KnowsBoxed?
    case Commit(p) => p < |s.packers| && s.packers[p].stage.Ready?
    case Abort(p) => p < |s.packers|
    case Pick(key, q) => q >= 0.0
    case Reverse(key, q) => 0.0 <= q <= At(s.boxed, key)
  }

  /** A step that has to wait for a lock is not enabled. */
  ghost predicate Enabled(hash: string -> nat, s: System, step: Step) {
    WellTimed(s, step) && (step.Lock? ==> Free(hash, s.packers, step.p, step.key))
  }

  /** The ceiling check of an assignment. */
  predicate Fits(picked: real, boxed: real, q: real) { picked > 0.0 && boxed + q <= picked + picked * 0.0001 }

  /** What becomes of the packer who moves; a check that fails rolls the whole transaction back. */
  function Moved(s: System, step: Step): Packer
    requires WellTimed(s, step) && !step.Pick? && !step.Reverse?
  {
    var me := s.packers[step.p];
    match step
    case Lock(p, key, q) => me.(held := me.held + {key}, stage := Locked(key, q))
    case ReadPicked(p) =>
      var ceiling := At(s.picked, me.stage.key);
      if ceiling <= 0.0 then IDLE else me.(stage := KnowsPicked(me.stage.key, me.stage.q, ceiling))
    case ReadBoxed(p) =>
      me.(stage := KnowsBoxed(me.stage.key, me.stage.q, me.stage.ceiling,
                              At(s.boxed, me.stage.key) + Own(me.inserted, me.stage.key)))
    case TryInsert(p) =>
      if !Fits(me.stage.ceiling, me.stage.packed, me.stage.q) then IDLE
      else me.(inserted := me.inserted + [Insert(me.stage.key, me.stage.q)], stage := Ready)
    case Commit(p) => IDLE
    case Abort(p) => IDLE
  }

  function Next(s: System, step: Step): System
    requires WellTimed(s, step)
  {
    match step
    case Pick(key, q) => s.(picked := Add(s.picked, key, q))
    case Reverse(key, q) => s.(boxed := Add(s.boxed, key, -q))
    case Commit(p) => s.(packers := s.packers[p := IDLE], boxed := AddAll(s.boxed, s.packers[p].inserted))
    case _ => s.(packers := s.packers[step.p := Moved(s, step)])
  }

  /** A run: the states passed through and the steps between them. */
  ghost predicate IsRun(hash: string -> nat, states: seq<System>, steps: seq<Step>) {
    && |states| == |steps| + 1
    && forall i :: 0 <= i < |steps| ==> Enabled(hash, states[i], steps[i]) && states[i + 1] == Next(states[i], steps[i])
  }

  ghost predicate Initial(s: System) {
    s.boxed == map[] && (forall k :: k in s.picked ==> s.picked[k] >= 0.0) && forall p :: 0 <= p < |s.packers| ==>
        s.packers[p] == IDLE
  }

  // What every step keeps

  ghost predicate WithinPicked(picked: real, boxed: real) { boxed <= picked + picked * 0.0001 }

  /** What a packer knows is still good enough: the ceiling it read can only have risen, and what it read
      as boxed can only have fallen, because nobody else inserts under its lock. */
  ghost predicate StageHolds(picked: map<Key, real>, boxed: map<Key, real>, me: Packer) {
    match me.stage
    case Ready => true
    case Locked(key, q) => key in me.held && q > 0.0
    case KnowsPicked(key, q, ceiling) => key in me.held && q > 0.0 && 0.0 < ceiling <= At(picked, key)
    case KnowsBoxed(key, q, ceiling, packed) =>
      key in me.held && q > 0.0 && 0.0 < ceiling <= At(picked, key) && At(boxed, key) + Own(me.inserted, key) <= packed
  }

  ghost predicate InsertsHold(picked: map<Key, real>, boxed: map<Key, real>, me: Packer) {
    forall i :: 0 <= i < |me.inserted| ==>
      && me.inserted[i].key in me.held && me.inserted[i].q > 0.0
      && WithinPicked(At(picked, me.inserted[i].key),
                      At(boxed, me.inserted[i].key) + Own(me.inserted, me.inserted[i].key))
  }

  ghost predicate PackersHold(s: System) {
    forall p :: 0 <= p < |s.packers| ==>
      StageHolds(s.picked, s.boxed, s.packers[p]) && InsertsHold(s.picked, s.boxed, s.packers[p])
  }

  ghost predicate Exclusive(packers: seq<Packer>) {
    forall p, r :: 0 <= p < r < |packers| ==> packers[p].held !! packers[r].held
  }

  ghost predicate Safe(s: System) {
    forall k: Key :: 0.0 <= At(s.boxed, k) && WithinPicked(At(s.picked, k), At(s.boxed, k))
  }

  ghost predicate Good(s: System) { PackersHold(s) && Exclusive(s.packers) && Safe(s) }

  lemma {:induction false} OwnSign(inserted: seq<Insert>, k: Key)
    requires forall i :: 0 <= i < |inserted| ==> inserted[i].q > 0.0
    ensures 0.0 <= Own(inserted, k)
    ensures Own(inserted, k) > 0.0 <==> exists i :: 0 <= i < |inserted| && inserted[i].key == k
  {
    if |inserted| > 0 {
      OwnSign(inserted[..|inserted| - 1], k);
    }
  }

  lemma {:induction false} AddAllAt(m: map<Key, real>, inserted: seq<Insert>, k: Key)
    ensures At(AddAll(m, inserted), k) == At(m, k) + Own(inserted, k)
  {
    if |inserted| > 0 {
      AddAllAt(m, inserted[..|inserted| - 1], k);
    }
  }

  /** Another packer's transaction does not care what is committed under keys it does not hold. */
  lemma OthersHold(
    picked: map<Key, real>, boxed: map<Key, real>, picked1: map<Key, real>, boxed1: map<Key, real>, me: Packer)
    requires StageHolds(picked, boxed, me) && InsertsHold(picked, boxed, me)
    requires forall k :: k in me.held ==> At(picked, k) <= At(picked1, k) && At(boxed1, k) <= At(boxed, k)
    ensures StageHolds(picked1, boxed1, me) && InsertsHold(picked1, boxed1, me)
  {
    forall i | 0 <= i < |me.inserted| ensures
      WithinPicked(At(picked1, me.inserted[i].key),
                   At(boxed1, me.inserted[i].key) + Own(me.inserted, me.inserted[i].key))
    {
      assert me.inserted[i].key in me.held;
    }
  }

  function Inserting(me: Packer): Packer
    requires me.stage.KnowsBoxed?
  {
    me.(inserted := me.inserted + [Insert(me.stage.key, me.stage.q)], stage := Ready)
  }

  /** An insert that passed the check leaves everything inserted so far within what is picked. */
  lemma InsertingHolds(picked: map<Key, real>, boxed: map<Key, real>, me: Packer)
    requires StageHolds(picked, boxed, me) && InsertsHold(picked, boxed, me)
    requires me.stage.KnowsBoxed? && Fits(me.stage.ceiling, me.stage.packed, me.stage.q)
    ensures InsertsHold(picked, boxed, Inserting(me))
  {
    var next := Inserting(me);
    assert next.inserted[..|me.inserted|] == me.inserted;
    forall i | 0 <= i < |next.inserted| ensures
        && next.inserted[i].key in next.held && next.inserted[i].q > 0.0
        && WithinPicked(At(picked, next.inserted[i].key),
                        At(boxed, next.inserted[i].key) + Own(next.inserted, next.inserted[i].key))
    {
      if i < |me.inserted| {
        assert next.inserted[i] == me.inserted[i];
      }
    }
  }

  lemma MoverHolds(s: System, step: Step)
    requires PackersHold(s) && WellTimed(s, step) && !step.Pick? && !step.Reverse?
    ensures StageHolds(s.picked, s.boxed, Moved(s, step)) && InsertsHold(s.picked, s.boxed, Moved(s, step))
  {
    var me := s.packers[step.p];
    assert StageHolds(s.picked, s.boxed, me) && InsertsHold(s.picked, s.boxed, me);
    if step.TryInsert? && Fits(me.stage.ceiling, me.stage.packed, me.stage.q) {
      InsertingHolds(s.picked, s.boxed, me);
      assert Moved(s, step) == Inserting(me);
    }
  }

  lemma CommitKeeps(s: System, p: nat)
    requires Good(s) && WellTimed(s, Commit(p))
    ensures Good(Next(s, Commit(p)))
  {
    var me, t := s.packers[p], Next(s, Commit(p));
    assert InsertsHold(s.picked, s.boxed, me);
    forall k: Key ensures 0.0 <= At(t.boxed, k) && WithinPicked(At(t.picked, k), At(t.boxed, k)) {
      AddAllAt(s.boxed, me.inserted, k);
      OwnSign(me.inserted, k);
    }
    forall r | 0 <= r < |t.packers| ensures StageHolds(t.picked, t.boxed, t.packers[r])
        && InsertsHold(t.picked, t.boxed, t.packers[r]) {
      if r != p {
        forall k | k in s.packers[r].held ensures At(t.boxed, k) == At(s.boxed, k) {
          assert k !in me.held;
          AddAllAt(s.boxed, me.inserted, k);
          OwnSign(me.inserted, k);
        }
        OthersHold(s.picked, s.boxed, t.picked, t.boxed, s.packers[r]);
      }
    }
  }

  lemma LocksStayApart(hash: string -> nat, s: System, step: Step)
    requires Exclusive(s.packers) && Enabled(hash, s, step) && !step.Pick? && !step.Reverse?
    ensures Exclusive(s.packers[step.p := Moved(s, step)])
  {
    var t := s.packers[step.p := Moved(s, step)];
    forall p, r | 0 <= p < r < |t| ensures t[p].held !! t[r].held {
      assert s.packers[p].held !! s.packers[r].held;
      if step.Lock? {
        assert Clash(hash, step.key, step.key);
        assert p != step.p ==> step.key !in s.packers[p].held;
        assert r != step.p ==> step.key !in s.packers[r].held;
      }
    }
  }

  lemma NextKeeps(hash: string -> nat, s: System, step: Step)
    requires Good(s) && Enabled(hash, s, step)
    ensures Good(Next(s, step))
  {
    var t := Next(s, step);
    if step.Commit? {
      CommitKeeps(s, step.p);
    } else if step.Pick? || step.Reverse? {
      forall r | 0 <= r < |t.packers| ensures StageHolds(t.picked, t.boxed, t.packers[r])
          && InsertsHold(t.picked, t.boxed, t.packers[r]) {
        OthersHold(s.picked, s.boxed, t.picked, t.boxed, s.packers[r]);
      }
      forall k: Key ensures 0.0 <= At(t.boxed, k) && WithinPicked(At(t.picked, k), At(t.boxed, k)) {
        assert 0.0 <= At(s.boxed, k) && WithinPicked(At(s.picked, k), At(s.boxed, k));
      }
    } else {
      MoverHolds(s, step);
      LocksStayApart(hash, s, step);
      forall r | 0 <= r < |t.packers| ensures StageHolds(t.picked, t.boxed, t.packers[r])
          && InsertsHold(t.picked, t.boxed, t.packers[r]) {
        assert StageHolds(s.picked, s.boxed, s.packers[r]) && InsertsHold(s.picked, s.boxed, s.packers[r]);
      }
      forall k: Key ensures 0.0 <= At(t.boxed, k) && WithinPicked(At(t.picked, k), At(t.boxed, k)) {
        assert 0.0 <= At(s.boxed, k) && WithinPicked(At(s.picked, k), At(s.boxed, k));
      }
    }
  }

  lemma InitialIsGood(s: System)
    requires Initial(s)
    ensures Good(s)
  {
  }

  lemma {:induction false} RunKeeps(hash: string -> nat, states: seq<System>, steps: seq<Step>, n: nat)
    requires IsRun(hash, states, steps) && Initial(states[0]) && n <= |steps|
    ensures Good(states[n])
  {
    if n == 0 {
      InitialIsGood(states[0]);
    } else {
      RunKeeps(hash, states, steps, n - 1);
      NextKeeps(hash, states[n - 1], steps[n - 1]);
    }
  }

  /** For any number of packers, any interleaving of their steps with picks and reversals, and any hash:
      what is boxed never exceeds what is picked by more than one part in ten thousand. */
  lemma NeverOverPacked(hash: string -> nat, states: seq<System>, steps: seq<Step>, n: nat, k: Key)
    requires IsRun(hash, states, steps) && Initial(states[0]) && n <= |steps|
    ensures 0.0 <= At(states[n].boxed, k) <= At(states[n].picked, k) * 1.0001
  {
    RunKeeps(hash, states, steps, n);
    assert WithinPicked(At(states[n].picked, k), At(states[n].boxed, k));
  }

  /** A hash that collides only makes packers wait: every run under it is a run under locks that tell
      all items apart. */
  lemma CollisionsOnlySerialise(hash: string -> nat, exact: string -> nat, states: seq<System>, steps: seq<Step>)
    requires IsRun(hash, states, steps)
    requires forall a, b :: exact(a) == exact(b) ==> a == b
    ensures IsRun(exact, states, steps)
  {
    forall i | 0 <= i < |steps| ensures Enabled(exact, states[i], steps[i]) {
      if steps[i].Lock? {
        forall r: nat, k: Key | r < |states[i].packers| && r != steps[i].p && k in states[i].packers[r].held
          ensures !Clash(exact, k, steps[i].key)
        {
          assert !Clash(hash, k, steps[i].key);
        }
      }
    }
  }

  // The concurrent system against one that assigns in one go

  datatype Atom = APick(key: Key, q: real) | AReverse(key: Key, q: real) | AAssign(key: Key, q: real)

  datatype Store = Store(picked: map<Key, real>, boxed: map<Key, real>)

  predicate Allowed(m: Store, a: Atom) {
    match a
    case APick(key, q) => q >= 0.0
    case AReverse(key, q) => 0.0 <= q <= At(m.boxed, key)
    case AAssign(key, q) => q > 0.0 && Fits(At(m.picked, key), At(m.boxed, key), q)
  }

  function Do(m: Store, a: Atom): Store {
    match a
    case APick(key, q) => m.(picked := Add(m.picked, key, q))
    case AReverse(key, q) => m.(boxed := Add(m.boxed, key, -q))
    case AAssign(key, q) => m.(boxed := Add(m.boxed, key, q))
  }

  function DoAll(m: Store, atoms: seq<Atom>): Store {
    if |atoms| == 0 then m else Do(DoAll(m, atoms[..|atoms| - 1]), atoms[|atoms| - 1])
  }

  predicate Serial(m: Store, atoms: seq<Atom>) {
    |atoms| == 0 || (Serial(m, atoms[..|atoms| - 1]) && Allowed(DoAll(m, atoms[..|atoms| - 1]), atoms[|atoms| - 1]))
  }

  function Assigns(inserted: seq<Insert>): seq<Atom> {
    seq(|inserted|, (i: int) requires 0 <= i < |inserted| => AAssign(inserted[i].key, inserted[i].q))
  }

  /** What a step does in one go: nothing until a transaction commits, and then all its assignments. */
  function Effect(s: System, step: Step): seq<Atom>
    requires WellTimed(s, step)
  {
    match step
    case Pick(key, q) => [APick(key, q)]
    case Reverse(key, q) => [AReverse(key, q)]
    case Commit(p) => Assigns(s.packers[p].inserted)
    case _ => []
  }

  function StoreOf(s: System): Store { Store(s.picked, s.boxed) }

  lemma {:induction false} OwnGrows(inserted: seq<Insert>, n: nat, k: Key)
    requires n <= |inserted| && forall i :: 0 <= i < |inserted| ==> inserted[i].q > 0.0
    ensures Own(inserted[..n], k) <= Own(inserted, k)
    decreases |inserted|
  {
    if n < |inserted| {
      var m := |inserted| - 1;
      OwnGrows(inserted[..m], n, k);
      assert inserted[..m][..n] == inserted[..n];
    } else {
      assert inserted[..n] == inserted;
    }
  }

  /** The assignments of a committing transaction all pass the ceiling check, one after the other, on
      what is committed at that moment. */
  lemma {:induction false} CommitIsSerial(s: System, p: nat, n: nat)
    requires Good(s) && p < |s.packers| && n <= |s.packers[p].inserted|
    ensures var inserted := s.packers[p].inserted[..n];
            Serial(StoreOf(s), Assigns(inserted))
                && DoAll(StoreOf(s), Assigns(inserted)) == Store(s.picked, AddAll(s.boxed, inserted))
  {
    if n > 0 {
      CommitIsSerial(s, p, n - 1);
      var all := s.packers[p].inserted;
      var head, now, last := all[..n - 1], all[..n], all[n - 1];
      assert now[..n - 1] == head && Assigns(now)[..n - 1] == Assigns(head);
      assert InsertsHold(s.picked, s.boxed, s.packers[p]);
      OwnGrows(all, n, last.key);
      OwnSign(head, last.key);
      AddAllAt(s.boxed, head, last.key);
      assert Own(now, last.key) == Own(head, last.key) + last.q;
      assert 0.0 <= At(s.boxed, last.key);
    }
  }

  lemma OneAtom(m: Store, a: Atom)
    ensures Serial(m, [a]) == Allowed(m, a) && DoAll(m, [a]) == Do(m, a)
  {
    assert [a][..0] == [];
  }

  lemma StepIsSerial(s: System, step: Step)
    requires Good(s) && WellTimed(s, step)
    ensures Serial(StoreOf(s), Effect(s, step)) && DoAll(StoreOf(s), Effect(s, step)) == StoreOf(Next(s, step))
  {
    if step.Commit? {
      var inserted := s.packers[step.p].inserted;
      assert inserted[..|inserted|] == inserted;
      CommitIsSerial(s, step.p, |inserted|);
    } else if step.Pick? {
      OneAtom(StoreOf(s), APick(step.key, step.q));
    } else if step.Reverse? {
      OneAtom(StoreOf(s), AReverse(step.key, step.q));
    }
  }

  function Effects(states: seq<System>, steps: seq<Step>, n: nat): seq<Atom>
    requires n <= |steps| <= |states| && forall i :: 0 <= i < n ==> WellTimed(states[i], steps[i])
  {
    if n == 0 then [] else Effects(states, steps, n - 1) + Effect(states[n - 1], steps[n - 1])
  }

  lemma {:induction false} SerialAppend(m: Store, a: seq<Atom>, b: seq<Atom>)
    requires Serial(m, a) && Serial(DoAll(m, a), b)
    ensures Serial(m, a + b) && DoAll(m, a + b) == DoAll(DoAll(m, a), b)
  {
    if |b| == 0 {
      assert a + b == a;
    } else {
      SerialAppend(m, a, b[..|b| - 1]);
      assert (a + b)[..|a + b| - 1] == a + b[..|b| - 1];
    }
  }

  /** Every concurrent run amounts to a serial one in which assignments are checked and made in one go:
      same picked and boxed quantities, in the order of the commits. */
  lemma {:induction false} RunIsSerial(hash: string -> nat, states: seq<System>, steps: seq<Step>, n: nat)
    requires IsRun(hash, states, steps) && Initial(states[0]) && n <= |steps|
    ensures var atoms := Effects(states, steps, n);
            Serial(StoreOf(states[0]), atoms) && DoAll(StoreOf(states[0]), atoms) == StoreOf(states[n])
  {
    if n > 0 {
      RunIsSerial(hash, states, steps, n - 1);
      RunKeeps(hash, states, steps, n - 1);
      StepIsSerial(states[n - 1], steps[n - 1]);
      SerialAppend(StoreOf(states[0]), Effects(states, steps, n - 1), Effect(states[n - 1], steps[n - 1]));
    }
  }

  // When a packer waits, and when it goes through

  /** A packer waits for a key exactly while somebody else holds one of the same list whose item has the same
      hash; other lists and other items never wait for it. */
  lemma WaitsIff(hash: string -> nat, s: System, p: nat, key: Key, q: real)
    requires p < |s.packers| && s.packers[p].stage.Ready? && q > 0.0
    ensures !Enabled(hash, s, Lock(p, key, q)) <==>
              exists r: nat, k: Key :: r < |s.packers| && r != p && k in s.packers[r].held
                && k.list == key.list && hash(k.item) == hash(key.item)
  {
    if !Free(hash, s.packers, p, key) {
      var r: nat, k: Key :| r < |s.packers| && r != p && k in s.packers[r].held && Clash(hash, k, key);
      assert k.list == key.list && hash(k.item) == hash(key.item);
    } else {
      forall r: nat, k: Key | r < |s.packers| && r != p && k in s.packers[r].held
        ensures k.list != key.list || hash(k.item) != hash(key.item)
      {
        assert !Clash(hash, k, key);
      }
    }
  }

  /** The first three steps of an assignment, for a packer nobody interrupts. */
  ghost predicate Uninterrupted(states: seq<System>, p: nat, key: Key, q: real) {
    && |states| == 4 && p < |states[0].packers| && states[0].packers[p].stage.Ready? && q > 0.0
    && At(states[0].picked, key) > 0.0
    && states[1] == Next(states[0], Lock(p, key, q))
    && states[2] == Next(states[1], ReadPicked(p))
    && states[3] == Next(states[2], ReadBoxed(p))
  }

  /** What a packer nobody interrupts assigns is added to its transaction exactly when it fits, with all that is
      committed and its own earlier assignments, within what is picked and one part in ten thousand more;
      otherwise the whole transaction is given up, and so it is when nothing was picked. */
  lemma AssignsIff(states: seq<System>, p: nat, key: Key, q: real)
    requires Uninterrupted(states, p, key, q)
    ensures var me, t := states[0].packers[p], Next(states[3], TryInsert(p));
            var fits := At(states[0].boxed, key) + Own(me.inserted, key) + q <= At(states[0].picked, key) * 1.0001;
            && t.picked == states[0].picked && t.boxed == states[0].boxed
            && t.packers[p] == (if fits then Packer(me.held + {key}, me.inserted + [Insert(key, q)], Ready) else IDLE)
            && forall r :: 0 <= r < |t.packers| && r != p ==> t.packers[r] == states[0].packers[r]
  {
  }

  lemma NothingPickedGivesUp(s: System, p: nat)
    requires WellTimed(s, ReadPicked(p)) && At(s.picked, s.packers[p].stage.key) <= 0.0
    ensures Next(s, ReadPicked(p)).packers[p] == IDLE && Next(s, ReadPicked(p)).boxed == s.boxed
  {
  }

  // Without the lock

  ghost predicate IsUnlockedRun(states: seq<System>, steps: seq<Step>) {
    && |states| == |steps| + 1
    && forall i :: 0 <= i < |steps| ==> WellTimed(states[i], steps[i]) && states[i + 1] == Next(states[i], steps[i])
  }

  const BOLT := Key(0, "BOLT")

  const RACE: seq<Step> :=
    [Lock(0, BOLT, 10.0), Lock(1, BOLT, 10.0), ReadPicked(0), ReadPicked(1), ReadBoxed(0), ReadBoxed(1),
     TryInsert(0), TryInsert(1), Commit(0), Commit(1)]

  function Racers(boxed: real, a: Packer, b: Packer): System { System(map[BOLT := 10.0], map[BOLT := boxed], [a, b]) }

  const WAITING := Packer({BOLT}, [], Locked(BOLT, 10.0))
  const COUNTING := Packer({BOLT}, [], KnowsPicked(BOLT, 10.0, 10.0))
  const CHECKING := Packer({BOLT}, [], KnowsBoxed(BOLT, 10.0, 10.0, 0.0))
  const DONE := Packer({BOLT}, [Insert(BOLT, 10.0)], Ready)

  const RACE_STATES: seq<System> :=
    [Racers(0.0, IDLE, IDLE), Racers(0.0, WAITING, IDLE), Racers(0.0, WAITING, WAITING), Racers(0.0, COUNTING, WAITING),
     Racers(0.0, COUNTING, COUNTING), Racers(0.0, CHECKING, COUNTING), Racers(0.0, CHECKING, CHECKING),
     Racers(0.0, DONE, CHECKING), Racers(0.0, DONE, DONE), Racers(10.0, IDLE, DONE), Racers(20.0, IDLE, IDLE)]

  lemma RaceLocks(i: nat)
    requires i < 2
    ensures WellTimed(RACE_STATES[i], RACE[i]) && RACE_STATES[i + 1] == Next(RACE_STATES[i], RACE[i])
  {
    assert IDLE.held + {BOLT} == {BOLT};
    assert RACE_STATES[i + 1].packers == Next(RACE_STATES[i], RACE[i]).packers;
  }

  lemma RaceReads(i: nat)
    requires 2 <= i < 6
    ensures WellTimed(RACE_STATES[i], RACE[i]) && RACE_STATES[i + 1] == Next(RACE_STATES[i], RACE[i])
  {
    assert RACE_STATES[i + 1].packers == Next(RACE_STATES[i], RACE[i]).packers;
  }

  lemma RaceInserts(i: nat)
    requires 6 <= i < 8
    ensures WellTimed(RACE_STATES[i], RACE[i]) && RACE_STATES[i + 1] == Next(RACE_STATES[i], RACE[i])
  {
    assert IDLE.inserted + [Insert(BOLT, 10.0)] == [Insert(BOLT, 10.0)];
    assert RACE_STATES[i + 1].packers == Next(RACE_STATES[i], RACE[i]).packers;
  }

  lemma RaceCommits(i: nat)
    requires i == 8 || i == 9
    ensures WellTimed(RACE_STATES[i], RACE[i]) && RACE_STATES[i + 1] == Next(RACE_STATES[i], RACE[i])
  {
    var one := [Insert(BOLT, 10.0)];
    assert one[..0] == [];
    assert AddAll(map[BOLT := 0.0], one) == map[BOLT := 10.0] && AddAll(map[BOLT := 10.0], one) == map[BOLT := 20.0];
    assert RACE_STATES[i + 1].packers == Next(RACE_STATES[i], RACE[i]).packers;
  }

  /** Without waiting for locks two packers both pass the check and box everything twice. */
  lemma UnlockedPackersRace()
    ensures IsUnlockedRun(RACE_STATES, RACE)
    ensures At(RACE_STATES[10].picked, BOLT) == 10.0 && At(RACE_STATES[0].boxed, BOLT) == 0.0
            && At(RACE_STATES[10].boxed, BOLT) == 20.0
  {
    forall i | 0 <= i < |RACE| ensures WellTimed(RACE_STATES[i], RACE[i])
        && RACE_STATES[i + 1] == Next(RACE_STATES[i], RACE[i]) {
      if i < 2 {
        RaceLocks(i);
      } else if i < 6 {
        RaceReads(i);
      } else if i < 8 {
        RaceInserts(i);
      } else {
        RaceCommits(i);
      }
    }
  }

  // The hash in use

  const WORD: nat := 0x1_0000_0000
  const PRIME: nat := 16777619

  /** What undoes a multiplication by the prime, modulo the word. */
  const INVERSE: nat := 899433627

  type Byte = b: nat | b < 256

  /** Exclusive or, bit by bit. */
  function Xor(a: nat, b: nat): nat {
    if a == 0 && b == 0 then 0 else 2 * Xor(a / 2, b / 2) + if a % 2 == b % 2 then 0 else 1
  }

  lemma Halves(x: nat, d: nat)
    requires d < 2
    ensures (2 * x + d) / 2 == x && (2 * x + d) % 2 == d
  {
  }

  lemma XorParts(a: nat, b: nat)
    ensures Xor(a, b) / 2 == Xor(a / 2, b / 2) && Xor(a, b) % 2 == if a % 2 == b % 2 then 0 else 1
  {
    Halves(Xor(a / 2, b / 2), if a % 2 == b % 2 then 0 else 1);
  }

  lemma SameHalves(a: nat, b: nat)
    requires a / 2 == b / 2 && a % 2 == b % 2
    ensures a == b
  {
  }

  /** A bit flipped twice, when it is put down as the difference from another. */
  lemma BitTwice(a: nat, b: nat, x: nat, y: nat)
    requires x % 2 == (if a % 2 == b % 2 then 0 else 1) && y % 2 == (if x % 2 == b % 2 then 0 else 1)
    ensures y % 2 == a % 2
  {
  }

  lemma {:induction false} XorTwice(a: nat, b: nat)
    ensures Xor(Xor(a, b), b) == a
  {
    if a != 0 || b != 0 {
      var x := Xor(a, b);
      XorTwice(a / 2, b / 2);
      XorParts(a, b);
      XorParts(x, b);
      BitTwice(a, b, x, Xor(x, b));
      SameHalves(Xor(x, b), a);
    }
  }

  lemma {:induction false} XorSwaps(a: nat, b: nat)
    ensures Xor(a, b) == Xor(b, a)
  {
    if a != 0 || b != 0 {
      XorSwaps(a / 2, b / 2);
    }
  }

  function Power(n: nat): (p: nat)
    ensures p > 0
  {
    if n == 0 then 1 else 2 * Power(n - 1)
  }

  /** Exclusive or needs no more bits than its operands have. */
  lemma {:induction false} XorBelow(a: nat, b: nat, n: nat)
    requires a < Power(n) && b < Power(n)
    ensures Xor(a, b) < Power(n)
  {
    if n > 0 && (a != 0 || b != 0) {
      XorBelow(a / 2, b / 2, n - 1);
    }
  }

  lemma XorByte(a: Byte, b: Byte)
    ensures Xor(a, b) < 256
  {
    assert Power(2) == 4 && Power(4) == 16 && Power(6) == 64 && Power(8) == 256;
    XorBelow(a, b, 8);
  }

  /** Exclusive or with a byte changes the low eight bits only. */
  function Blend(h: nat, byte: Byte): nat { h - h % 256 + Xor(h % 256, byte) }

  /** One step: exclusive or, then multiply, modulo two to the thirty-two. */
  function Mix(h: nat, byte: Byte): (r: nat)
    ensures r < WORD
  {
    (Blend(h, byte) * PRIME) % WORD
  }

  /** The step undone. */
  function Unmix(r: nat, byte: Byte): nat { Blend((r * INVERSE) % WORD, byte) }

  lemma LowByte(high: nat, low: Byte)
    ensures (256 * high + low) % 256 == low && (256 * high + low) - low == 256 * high
  {
  }

  lemma BlendTwice(h: nat, byte: Byte)
    requires h < WORD
    ensures Blend(h, byte) < WORD && Blend(Blend(h, byte), byte) == h && Blend(h, byte) % 256 == Xor(h % 256, byte)
  {
    var high, low := h / 256, h % 256;
    XorByte(low, byte);
    XorTwice(low, byte);
    assert h == 256 * high + low && high < 0x100_0000;
    assert Blend(h, byte) == 256 * high + Xor(low, byte);
    LowByte(high, Xor(low, byte));
  }

  lemma WholeWords(x: nat, k: int)
    requires x < WORD
    ensures (x + k * WORD) % WORD == x
  {
  }

  lemma Multiplies(x: nat)
    requires x < WORD
    ensures ((x * PRIME) % WORD * INVERSE) % WORD == x
  {
    var q, r := x * PRIME / WORD, (x * PRIME) % WORD;
    assert r == x * PRIME - q * WORD;
    assert r * INVERSE == x * (PRIME * INVERSE) - q * INVERSE * WORD;
    assert PRIME * INVERSE == 1 + 3513497 * WORD;
    assert r * INVERSE == x + (x * 3513497 - q * INVERSE) * WORD;
    WholeWords(x, x * 3513497 - q * INVERSE);
  }

  /** A step loses nothing of what went into it. */
  lemma UnmixMix(h: nat, byte: Byte)
    requires h < WORD
    ensures Unmix(Mix(h, byte), byte) == h
  {
    BlendTwice(h, byte);
    Multiplies(Blend(h, byte));
  }

  /** Different bytes make different steps. */
  lemma MixDiffers(h: nat, a: Byte, b: Byte)
    requires h < WORD && a != b
    ensures Mix(h, a) != Mix(h, b)
  {
    BlendTwice(h, a);
    BlendTwice(h, b);
    Multiplies(Blend(h, a));
    Multiplies(Blend(h, b));
    XorSwaps(h % 256, a);
    XorSwaps(h % 256, b);
    XorTwice(a, h % 256);
    XorTwice(b, h % 256);
  }

  function Hash(code: seq<Byte>): (h: nat)
    ensures h < WORD
  {
    if |code| == 0 then 2166136261 else Mix(Hash(code[..|code| - 1]), code[|code| - 1])
  }

  /** Two codes that differ in one byte never share a lock: a collision takes at least two. */
  lemma {:induction false} NearCodesDiffer(before: seq<Byte>, a: Byte, b: Byte, after: seq<Byte>)
    requires a != b
    ensures Hash(before + [a] + after) != Hash(before + [b] + after)
  {
    var x, y := before + [a] + after, before + [b] + after;
    if |after| == 0 {
      assert x[..|x| - 1] == before && y[..|y| - 1] == before;
      MixDiffers(Hash(before), a, b);
    } else {
      var head, last := after[..|after| - 1], after[|after| - 1];
      assert x[..|x| - 1] == before + [a] + head && y[..|y| - 1] == before + [b] + head;
      NearCodesDiffer(before, a, b, head);
      UnmixMix(Hash(before + [a] + head), last);
      UnmixMix(Hash(before + [b] + head), last);
    }
  }
}
