/**
 * Goroutines encrypting under one frame encryptor while keys rotate: the cached key is read without a
 * lock, and replaced under one after a second look.
 */
module KeyRotation {
  import opened Machine
  import opened VideoFraming
  import opened VideoEncryption

  /** Where a call of EncryptFrame stands, with the key index it read first. */
  datatype Phase =
    | Begun(index: nat)
    | Rotating(index: nat)
    | Locked(index: nat)
    | Fetched(index: nat, key: bytes)
    | Sealing(index: nat, key: bytes)
    | Failing

  /** The key provider's index and keys, the encryptor's cache and mutex, the calls; ever logs all keys set. */
  datatype World = World(
    current: nat, keys: map<nat, bytes>, cachedIndex: nat, cachedKey: bytes, lock: Option<nat>,
    calls: map<nat, Phase>, ever: set<(nat, bytes)>)

  datatype Step =
    | SetCurrent(index: nat)
    | SetKey(index: nat, key: bytes)
    | Begin(call: nat)
    | Load(call: nat)
    | Lock(call: nat)
    | Check(call: nat)
    | Store(call: nat)
    | Return(call: nat)

  predicate Enabled(w: World, step: Step) {
    match step
    case SetCurrent(_) => true
    case SetKey(_, _) => true
    case Begin(c) => c !in w.calls
    case Load(c) => c in w.calls && w.calls[c].Begun?
    case Lock(c) => c in w.calls && w.calls[c].Rotating? && w.lock.None?
    case Check(c) => c in w.calls && w.calls[c].Locked?
    case Store(c) => c in w.calls && w.calls[c].Fetched?
    case Return(c) => c in w.calls && (w.calls[c].Sealing? || w.calls[c].Failing?)
  }

  function To(w: World, call: nat, phase: Phase): World {
    w.(calls := w.calls[call := phase])
  }

  function Next(w: World, step: Step): World
    requires Enabled(w, step)
  {
    match step
    case SetCurrent(i) => w.(current := i)
    case SetKey(i, k) => w.(keys := w.keys[i := k], ever := w.ever + {(i, k)})
    case Begin(c) => To(w, c, if w.current > MAX_KEY_INDEX then Failing else Begun(w.current))
    case Load(c) =>
      var i := w.calls[c].index;
      To(w, c, if w.cachedIndex == i then Sealing(i, w.cachedKey) else Rotating(i))
    case Lock(c) => To(w, c, Locked(w.calls[c].index)).(lock := Some(c))
    case Check(c) =>
      var i := w.calls[c].index;
      To(w, c, if w.cachedIndex == i then Sealing(i, w.cachedKey)
               else if i in w.keys then Fetched(i, w.keys[i]) else Failing)
    case Store(c) =>
      var p := w.calls[c];
      To(w, c, Sealing(p.index, p.key)).(cachedIndex := p.index, cachedKey := p.key)
    case Return(c) => w.(calls := w.calls - {c}, lock := if w.lock == Some(c) then None else w.lock)
  }

  /** What holds of each call. */
  ghost predicate CallSafe(w: World, c: nat) {
    c in w.calls ==>
      match w.calls[c]
      case Begun(i) => i <= MAX_KEY_INDEX && w.lock != Some(c)
      case Rotating(i) => i <= MAX_KEY_INDEX && w.lock != Some(c)
      case Locked(i) => i <= MAX_KEY_INDEX && w.lock == Some(c)
      case Fetched(i, k) => i <= MAX_KEY_INDEX && w.lock == Some(c) && (i, k) in w.ever && w.cachedIndex != i
      case Sealing(i, k) => i <= MAX_KEY_INDEX && (i, k) in w.ever
      case Failing => true
  }

  ghost predicate KeysSafe(w: World) {
    && (w.cachedIndex, w.cachedKey) in w.ever && w.cachedIndex in w.keys
    && (w.lock.Some? ==> w.lock.value in w.calls)
    && (forall i :: i in w.keys ==> (i, w.keys[i]) in w.ever)
    && (forall p :: p in w.ever ==> p.0 in w.keys)
  }

  ghost predicate Inv(w: World) {
    KeysSafe(w) && forall c :: CallSafe(w, c)
  }

  lemma StepKeepsCall(w: World, step: Step, c: nat)
    requires Inv(w) && Enabled(w, step)
    ensures CallSafe(Next(w, step), c)
  {
    assert CallSafe(w, c);
    if !step.SetCurrent? && !step.SetKey? {
      assert CallSafe(w, step.call);
    }
  }

  lemma StepKeepsInv(w: World, step: Step)
    requires Inv(w) && Enabled(w, step)
    ensures Inv(Next(w, step)) && w.ever <= Next(w, step).ever
  {
    forall c ensures CallSafe(Next(w, step), c) {
      StepKeepsCall(w, step, c);
    }
    if !step.SetCurrent? && !step.SetKey? {
      assert CallSafe(w, step.call);
    }
  }

  ghost predicate Runs(w: World, steps: seq<Step>)
    decreases steps
  {
    steps == [] || (Enabled(w, steps[0]) && Runs(Next(w, steps[0]), steps[1..]))
  }

  ghost function After(w: World, steps: seq<Step>): World
    requires Runs(w, steps)
    decreases steps
  {
    if steps == [] then w else After(Next(w, steps[0]), steps[1..])
  }

  /** A new encryptor with the provider's current key. */
  function Created(index: nat, key: bytes): World {
    World(index, map[index := key], index, key, None, map[], {(index, key)})
  }

  lemma {:induction false} RunsKeepInv(w: World, steps: seq<Step>)
    requires Inv(w) && Runs(w, steps)
    ensures Inv(After(w, steps))
    decreases steps
  {
    if steps == [] {
    } else {
      StepKeepsInv(w, steps[0]);
      RunsKeepInv(Next(w, steps[0]), steps[1..]);
    }
  }

  /**
   * Over every interleaving: a frame is sealed under a key the provider has held at the index the
   * frame carries, which fits its byte; a key is fetched only when the cache holds another index; and
   * where no index is given a second key, the frame is sealed under the key the provider holds.
   */
  lemma SealedUnderItsIndex(index: nat, key: bytes, steps: seq<Step>, c: nat)
    requires Runs(Created(index, key), steps) && c in After(Created(index, key), steps).calls
    ensures var w := After(Created(index, key), steps);
      match w.calls[c]
      case Sealing(i, k) =>
        && i <= MAX_KEY_INDEX && (i, k) in w.ever && i in w.keys
        && (OneKeyEach(w.ever) ==> k == w.keys[i])
      case Fetched(i, k) => w.cachedIndex != i && w.lock == Some(c)
      case _ => true
  {
    RunsKeepInv(Created(index, key), steps);
    assert CallSafe(After(Created(index, key), steps), c);
  }

  ghost predicate OneKeyEach(ever: set<(nat, bytes)>) {
    forall p, q :: p in ever && q in ever && p.0 == q.0 ==> p.1 == q.1
  }

  // ---- A call that no other interrupts ----

  /** The steps of a lone call, up to its seal: two on the fast path, five when it rotates. */
  function LoneSteps(w: World, c: nat): seq<Step> {
    if w.current > MAX_KEY_INDEX then [Begin(c)]
    else if w.cachedIndex == w.current then [Begin(c), Load(c)]
    else if w.current in w.keys then [Begin(c), Load(c), Lock(c), Check(c), Store(c)]
    else [Begin(c), Load(c), Lock(c), Check(c)]
  }

  lemma RunsOn(w: World, step: Step, rest: seq<Step>)
    requires Enabled(w, step) && Runs(Next(w, step), rest)
    ensures Runs(w, [step] + rest) && After(w, [step] + rest) == After(Next(w, step), rest)
  {
    assert ([step] + rest)[1..] == rest;
  }

  lemma LoneCallRuns(w: World, c: nat)
    requires w.calls == map[] && w.lock.None?
    ensures Runs(w, LoneSteps(w, c)) && c in After(w, LoneSteps(w, c)).calls
    ensures After(w, LoneSteps(w, c)).calls[c] ==
      if w.current > MAX_KEY_INDEX then Failing
      else if w.cachedIndex == w.current then Sealing(w.current, w.cachedKey)
      else if w.current in w.keys then Sealing(w.current, w.keys[w.current])
      else Failing
  {
    var begun := Next(w, Begin(c));
    if w.current <= MAX_KEY_INDEX {
      var loaded := Next(begun, Load(c));
      if w.cachedIndex != w.current {
        RotationRuns(loaded, c);
        RunsOn(begun, Load(c), LoneRotation(loaded, c));
        RunsOn(w, Begin(c), [Load(c)] + LoneRotation(loaded, c));
        assert [Begin(c)] + ([Load(c)] + LoneRotation(loaded, c)) == LoneSteps(w, c);
      } else {
        RunsOn(begun, Load(c), []);
        RunsOn(w, Begin(c), [Load(c)]);
        assert [Load(c)] + [] == [Load(c)] && [Begin(c)] + [Load(c)] == LoneSteps(w, c);
      }
    } else {
      RunsOn(w, Begin(c), []);
      assert [Begin(c)] + [] == LoneSteps(w, c);
    }
  }

  function LoneRotation(w: World, c: nat): seq<Step>
    requires c in w.calls && w.calls[c].Rotating?
  {
    if w.calls[c].index in w.keys then [Lock(c), Check(c), Store(c)] else [Lock(c), Check(c)]
  }

  lemma RotationRuns(w: World, c: nat)
    requires c in w.calls && w.calls[c].Rotating? && w.lock.None? && w.cachedIndex != w.calls[c].index
    ensures Runs(w, LoneRotation(w, c)) && c in After(w, LoneRotation(w, c)).calls
    ensures After(w, LoneRotation(w, c)).calls[c] ==
      var i := w.calls[c].index; if i in w.keys then Sealing(i, w.keys[i]) else Failing
  {
    var locked := Next(w, Lock(c));
    var checked := Next(locked, Check(c));
    if w.calls[c].index in w.keys {
      RunsOn(checked, Store(c), []);
      RunsOn(locked, Check(c), [Store(c)]);
      RunsOn(w, Lock(c), [Check(c), Store(c)]);
      assert [Store(c)] + [] == [Store(c)] && [Check(c)] + [Store(c)] == [Check(c), Store(c)];
      assert [Lock(c)] + [Check(c), Store(c)] == LoneRotation(w, c);
    } else {
      RunsOn(locked, Check(c), []);
      RunsOn(w, Lock(c), [Check(c)]);
      assert [Check(c)] + [] == [Check(c)] && [Lock(c)] + [Check(c)] == LoneRotation(w, c);
    }
  }

  /**
   * Between calls, whatever ran before: the next frame, no other call interfering, is sealed under the
   * key held at the current index if and only if the cache holds another index or that very key.
   */
  lemma SealedUnderHeldKeyIff(index: nat, key: bytes, before: seq<Step>, c: nat)
    requires Runs(Created(index, key), before)
    requires var w := After(Created(index, key), before);
      w.calls == map[] && w.current <= MAX_KEY_INDEX && w.current in w.keys
    ensures var w := After(Created(index, key), before);
      && Runs(w, LoneSteps(w, c)) && c in After(w, LoneSteps(w, c)).calls
      && var p := After(w, LoneSteps(w, c)).calls[c];
         && p.Sealing? && p.index == w.current
         && (p.key == w.keys[w.current] <==> w.cachedIndex != w.current || w.cachedKey == w.keys[w.current])
  {
    RunsKeepInv(Created(index, key), before);
    LoneCallRuns(After(Created(index, key), before), c);
  }

  /** A key replaced at the current index is not noticed: the next frame is sealed under the old one. */
  lemma RefreshedKeyIsMissed(index: nat, before: bytes, refreshed: bytes)
    requires index <= MAX_KEY_INDEX && before != refreshed
    ensures var steps := [SetKey(index, refreshed), Begin(0), Load(0)];
      && Runs(Created(index, before), steps)
      && var w := After(Created(index, before), steps);
         w.calls == map[0 := Sealing(index, before)] && w.keys == map[index := refreshed]
  {
    var steps := [SetKey(index, refreshed), Begin(0), Load(0)];
    var a := Next(Created(index, before), steps[0]);
    var b := Next(a, steps[1]);
    var d := Next(b, steps[2]);
    assert steps[1..] == [Begin(0), Load(0)] && steps[1..][1..] == [Load(0)] && steps[1..][1..][1..] == [];
    assert Runs(d, []) && Runs(b, [Load(0)]) && Runs(a, [Begin(0), Load(0)]);
    assert After(b, [Load(0)]) == d && After(a, [Begin(0), Load(0)]) == d;
  }
}
