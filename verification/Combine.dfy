/** What a combine is handed: the workflow's own context and the results, apart. */
module Combine {
  import opened Topology

  // The engine stages the results to combine in the task's context under reserved keys; unstaging takes them out again.

  const ARM_PREFIX := "__arm__"
  const STEPS_PREFIX := "__steps__"

  /** A JSON value: null, or anything else. */
  datatype Value<V> = Null | Val(v: V)

  type Context<V> = map<string, Value<V>>

  /** A combine activation, as the task a worker leased names it. */
  datatype Activation<V> = Activation(armNames: seq<string>, collectKey: string, context: Context<V>)

  /** The results of a combine: by arm, as collected, or the empty list that stands for none. */
  datatype Results<V> = ByArm(arms: Context<V>) | Collected(value: Value<V>) | EmptyList

  /** A combine's context, the base without the results, and the results; or the name that was taken. */
  datatype Unstaged<V> =
    | NoCombine(ctx: Context<V>)
    | Combining(ctx: Context<V>, base: Context<V>, results: Results<V>)
    | Clash(name: string)

  // ---- taking staged results out ----

  /** A context and the results taken out of it so far, or the name that clashed. */
  datatype Placing<V> = Placing(base: Context<V>, placed: Context<V>) | Taken(name: string)

  function Place<V>(p: Placing<V>, scratch: string, name: string): Placing<V> {
    if p.Taken? || scratch !in p.base then p
    else
      var base := p.base - {scratch};
      if name in base then Taken(name) else Placing(base, p.placed[name := p.base[scratch]])
  }

  /** The first n arms. */
  function PlaceArms<V>(p: Placing<V>, arms: seq<string>, n: nat): Placing<V>
    requires n <= |arms|
  {
    if n == 0 then p else Place(PlaceArms(p, arms, n - 1), ARM_PREFIX + arms[n - 1], arms[n - 1])
  }

  function TrimPrefix(s: string, prefix: string): string {
    if prefix <= s then s[|prefix|..] else s
  }

  function Unstage<V>(task: Activation<V>): Unstaged<V> {
    var key := task.collectKey;
    if task.armNames == [] && key == "" then NoCombine(task.context)
    else if task.armNames != [] then
      match PlaceArms(Placing(task.context, map[]), task.armNames, |task.armNames|)
      case Taken(name) => Clash(name)
      case Placing(base, placed) => Combining(base + placed, base, ByArm(placed))
    else
      var base := task.context - {STEPS_PREFIX + key};
      if SPAWN_PREFIX <= key then
        Combining(base - {key}, base - {key}, if key in base && base[key].Val? then Collected(base[key]) else EmptyList)
      else
        var name := TrimPrefix(key, FOR_EACH_PREFIX);
        match Place(Placing(base, map[]), key, name)
        case Taken(name) => Clash(name)
        case Placing(base, placed) =>
          Combining(base + placed, base, Collected(if name in placed then placed[name] else Null))
  }

  method UnstageTask<V>(task: Activation<V>) returns (u: Unstaged<V>)
    ensures u == Unstage(task)
  {
    if |task.armNames| == 0 && task.collectKey == "" { return NoCombine(task.context); }
    var base := task.context;
    var placed: Context<V> := map[];
    if |task.armNames| > 0 {
      for i := 0 to |task.armNames|
        invariant PlaceArms(Placing(task.context, map[]), task.armNames, i) == Placing(base, placed)
      {
        var arm := task.armNames[i];
        StaysTaken(Placing(task.context, map[]), task.armNames, i + 1, |task.armNames|);
        if ARM_PREFIX + arm in base {
          var v := base[ARM_PREFIX + arm];
          base := base - {ARM_PREFIX + arm};
          if arm in base { return Clash(arm); }
          placed := placed[arm := v];
        }
      }
      return Combining(base + placed, base, ByArm(placed));
    }
    var key := task.collectKey;
    base := base - {STEPS_PREFIX + key};
    if SPAWN_PREFIX <= key {
      var results := if key in base && base[key].Val? then Collected(base[key]) else EmptyList;
      base := base - {key};
      return Combining(base, base, results);
    }
    var name := TrimPrefix(key, FOR_EACH_PREFIX);
    if key in base {
      var v := base[key];
      base := base - {key};
      if name in base { return Clash(name); }
      placed := placed[name := v];
    }
    return Combining(base + placed, base, Collected(if name in placed then placed[name] else Null));
  }

  lemma {:induction false} StaysTaken<V>(p: Placing<V>, arms: seq<string>, i: nat, n: nat)
    requires i <= n <= |arms|
    ensures PlaceArms(p, arms, i).Taken? ==> PlaceArms(p, arms, n) == PlaceArms(p, arms, i)
  {
    if i < n { StaysTaken(p, arms, i, n - 1); }
  }

  // ---- a fork's results ----

  /** A base with results staged under the scratch keys of their arms. */
  ghost function StagedArms<V>(base: Context<V>, results: Context<V>): Context<V> {
    map k | k in base.Keys + ScratchKeys(results.Keys) ::
      if IsScratch(k) && k[|ARM_PREFIX|..] in results then results[k[|ARM_PREFIX|..]] else if k in base then base[k]
        else Null
  }

  ghost predicate IsScratch(k: string) { ARM_PREFIX <= k }

  ghost function ScratchKeys(names: set<string>): set<string> { set a | a in names :: ARM_PREFIX + a }

  ghost function First(arms: seq<string>, n: nat): set<string>
    requires n <= |arms|
  {
    set i | 0 <= i < n :: arms[i]
  }

  /** No key of the base is the scratch key of an arm. */
  ghost predicate NoScratch<V>(base: Context<V>, arms: seq<string>) {
    forall i :: 0 <= i < |arms| ==> ARM_PREFIX + arms[i] !in base
  }

  lemma ScratchIs(a: string)
    ensures IsScratch(ARM_PREFIX + a) && (ARM_PREFIX + a)[|ARM_PREFIX|..] == a
  {}

  lemma StagedIs<V>(base: Context<V>, results: Context<V>, a: string)
    requires ARM_PREFIX + a !in base
    ensures ARM_PREFIX + a in StagedArms(base, results) <==> a in results
    ensures a in results ==> StagedArms(base, results)[ARM_PREFIX + a] == results[a]
  {
    ScratchIs(a);
    if ARM_PREFIX + a in ScratchKeys(results.Keys) {
      var b :| b in results && ARM_PREFIX + b == ARM_PREFIX + a;
      ScratchIs(b);
    }
  }

  lemma StagedLess<V>(base: Context<V>, results: Context<V>, a: string)
    requires ARM_PREFIX + a !in base
    ensures StagedArms(base, results) - {ARM_PREFIX + a} == StagedArms(base, results - {a})
  {
    var left, right := StagedArms(base, results) - {ARM_PREFIX + a}, StagedArms(base, results - {a});
    forall k ensures k in left <==> k in right {
      if IsScratch(k) {
        var b := k[|ARM_PREFIX|..];
        assert k == ARM_PREFIX + b;
        if k !in base {
          StagedIs(base, results, b);
          StagedIs(base, results - {a}, b);
        }
      } else {
        forall b ensures ARM_PREFIX + b != k { ScratchIs(b); }
      }
    }
    forall k | k in left ensures left[k] == right[k] {
      if IsScratch(k) { assert k == ARM_PREFIX + k[|ARM_PREFIX|..]; }
    }
  }

  /** The results of some of the arms. */
  ghost function Only<V>(results: Context<V>, names: set<string>): Context<V> {
    map a | a in results && a in names :: results[a]
  }

  /**
   * Arm i has a result, and its name is taken when it is its turn: by a key of the base, or by the scratch key of an
   * arm with a result that has not had its turn.
   */
  ghost predicate ClashAt<V>(base: Context<V>, arms: seq<string>, results: Context<V>, i: nat)
    requires i < |arms|
  {
    && arms[i] in results
    && (arms[i] in base || exists b :: b in results && arms[i] == ARM_PREFIX + b && b !in arms[..i])
  }

  /** The first of the first n arms that clashes. */
  ghost function FirstClash<V>(base: Context<V>, arms: seq<string>, results: Context<V>, n: nat): (at: Option<nat>)
    requires n <= |arms|
    ensures at.None? <==> forall i :: 0 <= i < n ==> !ClashAt(base, arms, results, i)
    ensures at.Some? ==> at.value < n && ClashAt(base, arms, results, at.value)
    ensures at.Some? ==> forall i :: 0 <= i < at.value ==> !ClashAt(base, arms, results, i)
  {
    if n == 0 then None
    else
      var before := FirstClash(base, arms, results, n - 1);
      if before.Some? then before else if ClashAt(base, arms, results, n - 1) then Some(n - 1) else None
  }

  /** Arm by arm, the results move out of the context, until one clashes. */
  lemma {:induction false} ArmsMove<V>(base: Context<V>, arms: seq<string>, results: Context<V>, n: nat)
    requires n <= |arms| && NoScratch(base, arms) && results.Keys <= First(arms, |arms|)
    ensures var p, done := PlaceArms(Placing(StagedArms(base, results), map[]), arms, n), First(arms, n);
            match FirstClash(base, arms, results, n)
            case Some(i) => p == Taken(arms[i])
            case None => p == Placing(StagedArms(base, results - done), Only(results, done))
  {
    hide StagedArms, NoScratch, ClashAt;
    if n == 0 {
      assert results - First(arms, 0) == results;
      assert Only(results, First(arms, 0)) == map[];
    } else {
      ArmsMove(base, arms, results, n - 1);
      if FirstClash(base, arms, results, n - 1).None? { ArmMoves(base, arms, results, n - 1); }
    }
  }

  /** What arm i does when the arms before it did not clash. */
  lemma ArmMoves<V>(base: Context<V>, arms: seq<string>, results: Context<V>, i: nat)
    requires i < |arms| && NoScratch(base, arms) && results.Keys <= First(arms, |arms|)
    requires FirstClash(base, arms, results, i).None?
    ensures var done, more := First(arms, i), First(arms, i + 1);
            var p := Place(Placing(StagedArms(base, results - done), Only(results, done)), ARM_PREFIX + arms[i],
                           arms[i]);
            p == if ClashAt(base, arms, results, i) then Taken(arms[i])
                 else Placing(StagedArms(base, results - more), Only(results, more))
  {
    hide StagedArms;
    var a, done, more := arms[i], First(arms, i), First(arms, i + 1);
    var before := results - done;
    assert more == done + {a};
    StagedIs(base, before, a);
    StagedLess(base, before, a);
    assert before - {a} == results - more;
    if a in before {
      NameIsStaged(base, arms, results, i);
      assert Only(results, done)[a := results[a]] == Only(results, more);
    } else {
      assert results - more == before;
      assert Only(results, more) == Only(results, done);
      if a in done {
        var x :| 0 <= x < i && arms[x] == a;
        ClashedBefore(base, arms, results, x, i);
      }
    }
  }

  /** A second turn of the same name clashes only if the first did. */
  lemma ClashedBefore<V>(base: Context<V>, arms: seq<string>, results: Context<V>, x: nat, i: nat)
    requires x < i < |arms| && arms[x] == arms[i]
    ensures ClashAt(base, arms, results, i) ==> ClashAt(base, arms, results, x)
  {
    assert forall b :: b in arms[..x] ==> b in arms[..i];
  }

  /** On the turn of an arm its name is in the context exactly when it clashes. */
  lemma NameIsStaged<V>(base: Context<V>, arms: seq<string>, results: Context<V>, i: nat)
    requires i < |arms| && arms[i] in results && arms[i] !in First(arms, i)
    ensures arms[i] in StagedArms(base, results - First(arms, i + 1)) <==> ClashAt(base, arms, results, i)
  {
    var a, left := arms[i], results - First(arms, i + 1);
    assert First(arms, i + 1) == First(arms, i) + {a};
    forall b ensures b in left && a == ARM_PREFIX + b <==> b in results && a == ARM_PREFIX + b && b !in arms[..i] {
      if a == ARM_PREFIX + b { assert |a| > |b|; }
      assert b in arms[..i] <==> b in First(arms, i);
    }
  }

  /**
   * Unstaging a fork's combine undoes staging, whatever its arms are called: it fails exactly on the first arm that
   * clashes, and else gives back the base, the results, and the two side by side.
   */
  lemma ForkUnstages<V>(base: Context<V>, arms: seq<string>, collectKey: string, results: Context<V>)
    requires arms != [] && NoScratch(base, arms) && results.Keys <= First(arms, |arms|)
    ensures var u := Unstage(Activation(arms, collectKey, StagedArms(base, results)));
            match FirstClash(base, arms, results, |arms|)
            case Some(i) => u == Clash(arms[i])
            case None => u == Combining(base + results, base, ByArm(results))
  {
    hide FirstClash, PlaceArms;
    ArmsMove(base, arms, results, |arms|);
    var all := First(arms, |arms|);
    assert results - all == map[];
    NothingStaged(base);
    assert Only(results, all) == results;
  }

  /** Arm i and another, listed later, have results, and arm i has the name of the other's scratch key. */
  ghost predicate NamedAhead<V>(arms: seq<string>, results: Context<V>, i: nat)
    requires i < |arms|
  {
    arms[i] in results && exists b :: b in results && arms[i] == ARM_PREFIX + b && b !in arms[..i]
  }

  /** So unstaging fails exactly when a result has the name of a key of the base, or an arm is named ahead. */
  lemma ForkClashesIff<V>(base: Context<V>, arms: seq<string>, results: Context<V>)
    requires results.Keys <= First(arms, |arms|)
    ensures FirstClash(base, arms, results, |arms|).Some? <==>
            !(results.Keys !! base.Keys) || exists i :: 0 <= i < |arms| && NamedAhead(arms, results, i)
  {
    hide ClashAt, NamedAhead;
    forall i | 0 <= i < |arms|
      ensures ClashAt(base, arms, results, i) <==>
              (arms[i] in results && arms[i] in base) || NamedAhead(arms, results, i)
    {
      ClashIsEither(base, arms, results, i);
    }
    if !(results.Keys !! base.Keys) {
      var a :| a in results && a in base;
      assert a in First(arms, |arms|);
      var i :| 0 <= i < |arms| && arms[i] == a;
      assert ClashAt(base, arms, results, i);
    }
  }

  lemma ClashIsEither<V>(base: Context<V>, arms: seq<string>, results: Context<V>, i: nat)
    requires i < |arms|
    ensures ClashAt(base, arms, results, i) <==> (arms[i] in results && arms[i] in base) || NamedAhead(arms, results, i)
  {}

  lemma NothingStaged<V>(base: Context<V>)
    ensures StagedArms(base, map[]) == base
  {
    assert ScratchKeys({}) == {};
    var empty: Context<V> := map[];
    assert empty.Keys == {};
  }

  // ---- collected results ----

  /** A base with the collected results of a forEach or of created branches, and where they came from. */
  ghost function StagedUnder<V>(base: Context<V>, key: string, results: Value<V>, steps: Value<V>): Context<V> {
    base[key := results][STEPS_PREFIX + key := steps]
  }

  ghost predicate NoCollected<V>(base: Context<V>, key: string) { key !in base && STEPS_PREFIX + key !in base }

  /** A forEach's name is none of the keys its results are staged under. */
  lemma PrefixedDiffers(name: string)
    ensures name != FOR_EACH_PREFIX + name && name != STEPS_PREFIX + (FOR_EACH_PREFIX + name)
    ensures TrimPrefix(FOR_EACH_PREFIX + name, FOR_EACH_PREFIX) == name
    ensures !(SPAWN_PREFIX <= FOR_EACH_PREFIX + name)
  {
    var key := FOR_EACH_PREFIX + name;
    assert |key| == |name| + |FOR_EACH_PREFIX|;
    assert |STEPS_PREFIX + key| > |name|;
    assert key[2] == 'f' && SPAWN_PREFIX[2] == 's';
  }

  /** Unstaging a forEach's combine undoes staging: it fails exactly when the base has a key of the forEach's name. */
  lemma ForEachUnstages<V>(base: Context<V>, name: string, results: Value<V>, steps: Value<V>)
    requires NoCollected(base, FOR_EACH_PREFIX + name)
    ensures var key := FOR_EACH_PREFIX + name;
            var u := Unstage(Activation([], key, StagedUnder(base, key, results, steps)));
            u == if name in base then Clash(name) else Combining(base[name := results], base, Collected(results))
  {
    var key := FOR_EACH_PREFIX + name;
    PrefixedDiffers(name);
    KeysDiffer(key);
    var ctx := StagedUnder(base, key, results, steps) - {STEPS_PREFIX + key};
    assert ctx == base[key := results];
    assert ctx - {key} == base;
    assert base + map[name := results] == base[name := results];
  }

  lemma KeysDiffer(key: string)
    ensures STEPS_PREFIX + key != key
  {
    assert |STEPS_PREFIX + key| > |key|;
  }

  /**
   * Unstaging a spawning task's combine never fails: it gives back the base, and the results of the branches, which
   * are an empty list when no branch left any.
   */
  lemma SpawnUnstages<V>(base: Context<V>, step: string, results: Value<V>, steps: Value<V>)
    requires NoCollected(base, SPAWN_PREFIX + step)
    ensures var key := SPAWN_PREFIX + step;
            var none := if results.Null? then EmptyList else Collected(results);
            && Unstage(Activation([], key, StagedUnder(base, key, results, steps))) == Combining(base, base, none)
            && Unstage(Activation([], key, base)) == Combining(base, base, EmptyList)
  {
    var key := SPAWN_PREFIX + step;
    KeysDiffer(key);
    assert key[..|SPAWN_PREFIX|] == SPAWN_PREFIX;
    var ctx := StagedUnder(base, key, results, steps) - {STEPS_PREFIX + key};
    assert ctx == base[key := results];
    assert ctx - {key} == base;
    assert base - {STEPS_PREFIX + key} == base;
    assert base - {key} == base;
  }

  /**
   * An arm named after another's scratch key fails with an empty base when it comes first, and not when it comes last.
   */
  lemma ArmNamedAfterScratch<V>(v: Value<V>)
    ensures var scratch := ARM_PREFIX + "pay";
            var results: Context<V> := map["pay" := v, scratch := v];
            var context := StagedArms(map[], results);
            && Unstage(Activation([scratch, "pay"], "", context)) == Clash(scratch)
            && Unstage(Activation(["pay", scratch], "", context)) == Combining(results, map[], ByArm(results))
  {
    hide StagedArms, Unstage;
    var scratch := ARM_PREFIX + "pay";
    var results: Context<V> := map["pay" := v, scratch := v];
    var base: Context<V> := map[];
    var failing, passing := [scratch, "pay"], ["pay", scratch];
    assert |ARM_PREFIX + scratch| > |scratch| > |"pay"|;
    assert First(failing, 2) == {failing[0], failing[1]} && First(passing, 2) == {passing[0], passing[1]};
    assert ClashAt(base, failing, results, 0) by { assert "pay" !in failing[..0]; }
    assert !ClashAt(base, passing, results, 0);
    assert passing[..1] == ["pay"];
    forall b | scratch == ARM_PREFIX + b ensures b == "pay" {
      ScratchIs("pay");
      ScratchIs(b);
    }
    assert !ClashAt(base, passing, results, 1);
    ForkUnstages(base, failing, "", results);
    ForkUnstages(base, passing, "", results);
    assert base + results == results;
  }
}
