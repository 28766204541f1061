/**
 * assign_resource(hex_centers, hex_counts, max_resource_count) of the
 * prototype (CatanGen2.py:75-92): walk the centres, pop a resource from a
 * shuffled list of the resource names, refilled with a fresh shuffle whenever
 * it is empty, and map the centre to that resource only while the resource is
 * under the cap.
 *
 * `hex_counts` is taken as the body uses it, a dictionary from resource to a
 * value; centres and resources are opaque values. random.shuffle is the
 * parameter `shuffle`: shuffle j is the list produced by the j-th shuffle, any
 * ordering of the resource names.
 */
module CappedAssignment {

  datatype Option<T> = None | Some(value: T)

  /** Every shuffle lists each resource name exactly once. */
  ghost predicate Shuffles<K>(shuffle: nat -> seq<K>, keys: set<K>)
  {
    forall j: nat :: multiset(shuffle(j)) == multiset(keys)
  }

  lemma ShuffleLength<K>(shuffle: nat -> seq<K>, keys: set<K>, j: nat)
    requires Shuffles(shuffle, keys)
    ensures |shuffle(j)| == |keys|
  {
    assert multiset(shuffle(j)) == multiset(keys);
    assert |shuffle(j)| == |multiset(shuffle(j))|;
  }

  /** The order in which pop() takes the elements of a list: the last one first. */
  function PopOrder<K>(s: seq<K>): (r: seq<K>)
    ensures |r| == |s|
  {
    if s == [] then [] else [s[|s| - 1]] + PopOrder(s[..|s| - 1])
  }

  lemma {:induction false} PopOrderBag<K>(s: seq<K>)
    ensures multiset(PopOrder(s)) == multiset(s)
  {
    if s != [] {
      PopOrderBag(s[..|s| - 1]);
      assert s == s[..|s| - 1] + [s[|s| - 1]];
    }
  }

  /**
   * The resources popped from the first q shuffles, in popping order: each
   * list is popped from its end.
   */
  function DrawList<K>(shuffle: nat -> seq<K>, q: nat): seq<K>
  {
    if q == 0 then [] else DrawList(shuffle, q - 1) + PopOrder(shuffle(q - 1))
  }

  lemma {:induction false} DrawListLength<K>(shuffle: nat -> seq<K>, keys: set<K>, q: nat)
    requires Shuffles(shuffle, keys)
    ensures |DrawList(shuffle, q)| == q * |keys|
  {
    if q > 0 {
      DrawListLength(shuffle, keys, q - 1);
      ShuffleLength(shuffle, keys, q - 1);
      assert q * |keys| == (q - 1) * |keys| + |keys|;
    }
  }

  lemma {:induction false} DrawListPrefix<K>(shuffle: nat -> seq<K>, q: nat, q': nat)
    requires q <= q'
    ensures |DrawList(shuffle, q)| <= |DrawList(shuffle, q')|
    ensures DrawList(shuffle, q) == DrawList(shuffle, q')[..|DrawList(shuffle, q)|]
  {
    if q < q' {
      DrawListPrefix(shuffle, q, q' - 1);
    }
  }

  /** Each block of |keys| consecutive draws holds every resource exactly once. */
  lemma BlockDrawsEachOnce<K>(shuffle: nat -> seq<K>, keys: set<K>, q: nat)
    requires Shuffles(shuffle, keys)
    ensures DrawList(shuffle, q + 1) == DrawList(shuffle, q) + PopOrder(shuffle(q))
    ensures multiset(PopOrder(shuffle(q))) == multiset(keys)
  {
    assert multiset(shuffle(q)) == multiset(keys);
    PopOrderBag(shuffle(q));
  }

  /** Every draw is one of the resource names. */
  lemma {:induction false} DrawnIsName<K>(shuffle: nat -> seq<K>, keys: set<K>, q: nat, i: nat)
    requires Shuffles(shuffle, keys) && i < |DrawList(shuffle, q)|
    ensures DrawList(shuffle, q)[i] in keys
  {
    var prev, block := DrawList(shuffle, q - 1), PopOrder(shuffle(q - 1));
    BlockDrawsEachOnce(shuffle, keys, q - 1);
    if i < |prev| {
      DrawnIsName(shuffle, keys, q - 1, i);
    } else {
      assert DrawList(shuffle, q)[i] == block[i - |prev|];
      assert block[i - |prev|] in multiset(block);
    }
  }

  lemma DrawListKeys<K>(shuffle: nat -> seq<K>, keys: set<K>, q: nat)
    requires Shuffles(shuffle, keys)
    ensures forall i :: 0 <= i < |DrawList(shuffle, q)| ==> DrawList(shuffle, q)[i] in keys
  {
    forall i | 0 <= i < |DrawList(shuffle, q)| ensures DrawList(shuffle, q)[i] in keys {
      DrawnIsName(shuffle, keys, q, i);
    }
  }

  /** resource_count[r] after the first n draws: the draws of r that found r under the cap. */
  function TakenCount<K(==)>(draws: seq<K>, max: int, r: K, n: nat): nat
    requires n <= |draws|
  {
    if n == 0 then 0
    else
      var before := TakenCount(draws, max, r, n - 1);
      before + (if draws[n - 1] == r && before < max then 1 else 0)
  }

  /** resource_count after the first n draws: every resource name with its taken count. */
  function Counts<K(==)>(keys: set<K>, draws: seq<K>, max: int, n: nat): map<K, int>
    requires n <= |draws|
  {
    map r | r in keys :: TakenCount(draws, max, r, n)
  }

  /** Draw i was under the cap, so centre i was mapped. */
  predicate Taken<K(==)>(draws: seq<K>, max: int, i: nat)
    requires i < |draws|
  {
    TakenCount(draws, max, draws[i], i) < max
  }

  /** hex_mapping after the first n centres have met the first n draws, one draw per centre in order. */
  function Assigned<C(==), K(==), V>(centres: seq<C>, hexCounts: map<K, V>, max: int, draws: seq<K>, n: nat): map<C, (K, V)>
    requires n <= |centres| && n <= |draws| && forall j :: 0 <= j < n ==> draws[j] in hexCounts
  {
    if n == 0 then map[]
    else
      var before := Assigned(centres, hexCounts, max, draws, n - 1);
      var r := draws[n - 1];
      if Taken(draws, max, n - 1) then before[centres[n - 1] := (r, hexCounts[r])] else before
  }

  /** Only the first n draws matter to the mapping and the counts. */
  lemma {:induction false} AssignedPrefix<C, K, V>(centres: seq<C>, hexCounts: map<K, V>, max: int, draws: seq<K>, draws': seq<K>, n: nat)
    requires n <= |centres| && n <= |draws| <= |draws'| && draws == draws'[..|draws|]
    requires forall j :: 0 <= j < n ==> draws[j] in hexCounts
    ensures forall r :: TakenCount(draws, max, r, n) == TakenCount(draws', max, r, n)
    ensures Assigned(centres, hexCounts, max, draws, n) == Assigned(centres, hexCounts, max, draws', n)
  {
    if n > 0 {
      AssignedPrefix(centres, hexCounts, max, draws, draws', n - 1);
      assert draws[n - 1] == draws'[n - 1];
    }
  }

  // ---------------------------------------------------------------------------
  // The loop of assign_resource

  /**
   * The loop of assign_resource from centre i on, given the list, the number
   * of shuffles so far, the mapping and the counts: the result and the number
   * of shuffles in the end. An empty list is first refilled with a new shuffle.
   */
  function RunFrom<C(==), K(==), V>(centres: seq<C>, hexCounts: map<K, V>, max: int, shuffle: nat -> seq<K>, i: nat,
                                    resourceList: seq<K>, shuffles: nat, mapping: map<C, (K, V)>,
                                    resourceCount: map<K, int>): (Option<map<C, (K, V)>>, nat)
    requires i <= |centres|
    decreases |centres| - i, 1
  {
    if i == |centres| then (Some(mapping), shuffles)
    else if resourceList == [] then
      PopNext(centres, hexCounts, max, shuffle, i, shuffle(shuffles), shuffles + 1, mapping, resourceCount)
    else
      PopNext(centres, hexCounts, max, shuffle, i, resourceList, shuffles, mapping, resourceCount)
  }

  /**
   * The rest of iteration i once the list has been refilled if it was empty:
   * pop the last resource and map centre i to it under the cap. The result is
   * None where Python raises: pop() on an empty list, or a resource missing
   * from a dictionary.
   */
  function PopNext<C(==), K(==), V>(centres: seq<C>, hexCounts: map<K, V>, max: int, shuffle: nat -> seq<K>, i: nat,
                                    resourceList: seq<K>, shuffles: nat, mapping: map<C, (K, V)>,
                                    resourceCount: map<K, int>): (Option<map<C, (K, V)>>, nat)
    requires i < |centres|
    decreases |centres| - i, 0
  {
    if resourceList == [] then (None, shuffles)
    else
      var r := resourceList[|resourceList| - 1];
      var rest := resourceList[..|resourceList| - 1];
      if r !in resourceCount then (None, shuffles)
      else if resourceCount[r] >= max then
        RunFrom(centres, hexCounts, max, shuffle, i + 1, rest, shuffles, mapping, resourceCount)
      else if r !in hexCounts then (None, shuffles)
      else
        RunFrom(centres, hexCounts, max, shuffle, i + 1, rest, shuffles,
                mapping[centres[i] := (r, hexCounts[r])], resourceCount[r := resourceCount[r] + 1])
  }

  /** assign_resource: the loop from the first centre, on the first shuffle, with no mapping and every count 0. */
  function Assignment<C(==), K(==), V>(centres: seq<C>, hexCounts: map<K, V>, max: int, shuffle: nat -> seq<K>)
    : (Option<map<C, (K, V)>>, nat)
  {
    RunFrom(centres, hexCounts, max, shuffle, 0, shuffle(0), 1, map[], map r | r in hexCounts.Keys :: 0)
  }

  /**
   * What the loop promises from centre i on: it fails only when there are no
   * resource names and a centre is left; otherwise the mapping is Assigned for
   * the draws of the shuffles made, and the last shuffle was needed.
   */
  ghost predicate Outcome<C, K, V>(centres: seq<C>, hexCounts: map<K, V>, max: int, shuffle: nat -> seq<K>, i: nat,
                                   out: (Option<map<C, (K, V)>>, nat))
  {
    && out.1 >= 1
    && (out.0.None? <==> |hexCounts.Keys| == 0 && i < |centres|)
    && (out.0.Some? ==> Completed(centres, hexCounts, max, shuffle, out.0.value, out.1))
  }

  /** A mapping that all centres produced from the draws of `shuffles` shuffles, of which the last was needed. */
  ghost predicate Completed<C, K, V>(centres: seq<C>, hexCounts: map<K, V>, max: int, shuffle: nat -> seq<K>,
                                     mapping: map<C, (K, V)>, shuffles: nat)
  {
    && |centres| <= |DrawList(shuffle, shuffles)|
    && (shuffles > 1 ==> |DrawList(shuffle, shuffles - 1)| < |centres|)
    && (forall j :: 0 <= j < |centres| ==> DrawList(shuffle, shuffles)[j] in hexCounts)
    && mapping == Assigned(centres, hexCounts, max, DrawList(shuffle, shuffles), |centres|)
  }

  /**
   * The list side of the loop after i centres: `shuffles` lists have been
   * shuffled, `draws` is DrawList of them, whose last block starts at `start`;
   * the first i draws have been popped and the rest are what popping
   * `resourceList` will give.
   */
  ghost predicate Popping<K>(shuffle: nat -> seq<K>, shuffles: nat, i: nat, resourceList: seq<K>, draws: seq<K>, start: nat)
  {
    && shuffles >= 1
    && draws == DrawList(shuffle, shuffles) && start == |DrawList(shuffle, shuffles - 1)|
    && start <= i <= |draws|
    && draws[i..] == PopOrder(resourceList)
  }

  /** The dictionary side: `mapping` and `resourceCount` are what the first n draws produce. */
  ghost predicate Mapping<C, K, V>(centres: seq<C>, hexCounts: map<K, V>, max: int, draws: seq<K>, n: nat,
                                   mapping: map<C, (K, V)>, resourceCount: map<K, int>)
  {
    && n <= |centres| && n <= |draws|
    && (forall j :: 0 <= j < n ==> draws[j] in hexCounts)
    && mapping == Assigned(centres, hexCounts, max, draws, n)
    && resourceCount.Keys == hexCounts.Keys
    && resourceCount == Counts(hexCounts.Keys, draws, max, n)
  }

  /** The whole state of the loop at the head of iteration i. */
  ghost predicate Loop<C, K, V>(shuffle: nat -> seq<K>, centres: seq<C>, hexCounts: map<K, V>, max: int, shuffles: nat, i: nat,
                                resourceList: seq<K>, draws: seq<K>, start: nat, mapping: map<C, (K, V)>, resourceCount: map<K, int>)
  {
    && Popping(shuffle, shuffles, i, resourceList, draws, start)
    && Mapping(centres, hexCounts, max, draws, i, mapping, resourceCount)
    && (shuffles > 1 ==> start < i)
    && (|hexCounts.Keys| == 0 ==> i == 0 && shuffles == 1 && resourceList == [])
  }

  /** The state once the list has been refilled if it was empty: only an empty name set leaves it empty. */
  ghost predicate Ready<C, K, V>(shuffle: nat -> seq<K>, centres: seq<C>, hexCounts: map<K, V>, max: int, shuffles: nat, i: nat,
                                 resourceList: seq<K>, draws: seq<K>, start: nat, mapping: map<C, (K, V)>, resourceCount: map<K, int>)
  {
    && Popping(shuffle, shuffles, i, resourceList, draws, start)
    && Mapping(centres, hexCounts, max, draws, i, mapping, resourceCount)
    && (shuffles > 1 ==> start <= i)
    && (resourceList == [] ==> |hexCounts.Keys| == 0)
  }

  lemma LoopStart<C, K, V>(shuffle: nat -> seq<K>, centres: seq<C>, hexCounts: map<K, V>, max: int)
    requires Shuffles(shuffle, hexCounts.Keys)
    ensures Loop(shuffle, centres, hexCounts, max, 1, 0, shuffle(0), DrawList(shuffle, 1), 0, map[],
                 map r | r in hexCounts.Keys :: 0)
  {
    ShuffleLength(shuffle, hexCounts.Keys, 0);
    var draws := DrawList(shuffle, 1);
    assert draws[0..] == PopOrder(shuffle(0));
  }

  /** An empty list is refilled with the next shuffle, whose pops follow the draws so far. */
  lemma RefillStep<K>(shuffle: nat -> seq<K>, shuffles: nat, i: nat, draws: seq<K>, start: nat)
    requires Popping(shuffle, shuffles, i, [], draws, start)
    ensures Popping(shuffle, shuffles + 1, i, shuffle(shuffles), DrawList(shuffle, shuffles + 1), i)
  {
    assert |draws| == i;
    var next := DrawList(shuffle, shuffles + 1);
    assert next[i..] == PopOrder(shuffle(shuffles));
  }

  /** Drawing from one more shuffle keeps the mapping and the counts of the first n draws. */
  lemma ExtendDraws<C, K, V>(shuffle: nat -> seq<K>, centres: seq<C>, hexCounts: map<K, V>, max: int, shuffles: nat, n: nat,
                             mapping: map<C, (K, V)>, resourceCount: map<K, int>)
    requires Mapping(centres, hexCounts, max, DrawList(shuffle, shuffles), n, mapping, resourceCount)
    ensures Mapping(centres, hexCounts, max, DrawList(shuffle, shuffles + 1), n, mapping, resourceCount)
  {
    DrawListPrefix(shuffle, shuffles, shuffles + 1);
    AssignedPrefix(centres, hexCounts, max, DrawList(shuffle, shuffles), DrawList(shuffle, shuffles + 1), n);
  }

  /** An empty list is refilled with the next shuffle, and the draws grow by its block. */
  lemma Refill<C, K, V>(shuffle: nat -> seq<K>, centres: seq<C>, hexCounts: map<K, V>, max: int, shuffles: nat, i: nat,
                        draws: seq<K>, start: nat, mapping: map<C, (K, V)>, resourceCount: map<K, int>)
    requires Shuffles(shuffle, hexCounts.Keys)
    requires Loop(shuffle, centres, hexCounts, max, shuffles, i, [], draws, start, mapping, resourceCount)
    ensures Ready(shuffle, centres, hexCounts, max, shuffles + 1, i, shuffle(shuffles), DrawList(shuffle, shuffles + 1), i,
                  mapping, resourceCount)
  {
    RefillStep(shuffle, shuffles, i, draws, start);
    ShuffleLength(shuffle, hexCounts.Keys, shuffles);
    ExtendDraws(shuffle, centres, hexCounts, max, shuffles, i, mapping, resourceCount);
  }

  /** Popping the last resource of the list draws the next resource of `draws`, one of the resource names. */
  lemma PopStep<K>(shuffle: nat -> seq<K>, keys: set<K>, shuffles: nat, i: nat, resourceList: seq<K>,
                   draws: seq<K>, start: nat)
    requires Shuffles(shuffle, keys)
    requires Popping(shuffle, shuffles, i, resourceList, draws, start)
    requires resourceList != []
    ensures i < |draws| && resourceList[|resourceList| - 1] == draws[i]
    ensures resourceList[|resourceList| - 1] in keys
    ensures Popping(shuffle, shuffles, i + 1, resourceList[..|resourceList| - 1], draws, start)
  {
    assert draws[i..][0] == draws[i];
    assert draws[i + 1..] == draws[i..][1..];
    DrawnIsName(shuffle, keys, shuffles, i);
  }

  /** The centre meets the drawn resource: it is mapped and counted only under the cap. */
  lemma CapStep<C, K, V>(centres: seq<C>, hexCounts: map<K, V>, max: int, draws: seq<K>, n: nat,
                         mapping: map<C, (K, V)>, resourceCount: map<K, int>,
                         mapping': map<C, (K, V)>, resourceCount': map<K, int>)
    requires Mapping(centres, hexCounts, max, draws, n, mapping, resourceCount)
    requires n < |centres| && n < |draws| && draws[n] in hexCounts
    requires var r := draws[n];
      && mapping' == (if resourceCount[r] < max then mapping[centres[n] := (r, hexCounts[r])] else mapping)
      && resourceCount' == (if resourceCount[r] < max then resourceCount[r := resourceCount[r] + 1] else resourceCount)
    ensures Mapping(centres, hexCounts, max, draws, n + 1, mapping', resourceCount')
  {
  }

  /** The loop keeps its promise from any state the iterations reach. */
  lemma {:induction false} RunFromMeaning<C, K, V>(shuffle: nat -> seq<K>, centres: seq<C>, hexCounts: map<K, V>, max: int,
                                                   shuffles: nat, i: nat, resourceList: seq<K>, draws: seq<K>, start: nat,
                                                   mapping: map<C, (K, V)>, resourceCount: map<K, int>)
    requires Shuffles(shuffle, hexCounts.Keys) && i <= |centres|
    requires Loop(shuffle, centres, hexCounts, max, shuffles, i, resourceList, draws, start, mapping, resourceCount)
    ensures Outcome(centres, hexCounts, max, shuffle, i,
                    RunFrom(centres, hexCounts, max, shuffle, i, resourceList, shuffles, mapping, resourceCount))
    decreases |centres| - i, 1, 0
  {
    if i == |centres| {
      LoopEnd(shuffle, centres, hexCounts, max, shuffles, resourceList, draws, start, mapping, resourceCount);
    } else if resourceList == [] {
      RefillThenNext(shuffle, centres, hexCounts, max, shuffles, i, draws, start, mapping, resourceCount);
    } else {
      NextIteration(shuffle, centres, hexCounts, max, shuffles, i, resourceList, draws, start, mapping, resourceCount);
    }
  }

  /** After the last centre the mapping is the one the draws define. */
  lemma LoopEnd<C, K, V>(shuffle: nat -> seq<K>, centres: seq<C>, hexCounts: map<K, V>, max: int,
                         shuffles: nat, resourceList: seq<K>, draws: seq<K>, start: nat,
                         mapping: map<C, (K, V)>, resourceCount: map<K, int>)
    requires Loop(shuffle, centres, hexCounts, max, shuffles, |centres|, resourceList, draws, start, mapping, resourceCount)
    ensures Outcome(centres, hexCounts, max, shuffle, |centres|,
                    RunFrom(centres, hexCounts, max, shuffle, |centres|, resourceList, shuffles, mapping, resourceCount))
  {
  }

  /** An iteration that starts on an empty list: refill it, then go on. */
  lemma {:induction false} RefillThenNext<C, K, V>(shuffle: nat -> seq<K>, centres: seq<C>, hexCounts: map<K, V>, max: int,
                                                   shuffles: nat, i: nat, draws: seq<K>, start: nat,
                                                   mapping: map<C, (K, V)>, resourceCount: map<K, int>)
    requires Shuffles(shuffle, hexCounts.Keys) && i < |centres|
    requires Loop(shuffle, centres, hexCounts, max, shuffles, i, [], draws, start, mapping, resourceCount)
    ensures Outcome(centres, hexCounts, max, shuffle, i,
                    RunFrom(centres, hexCounts, max, shuffle, i, [], shuffles, mapping, resourceCount))
    decreases |centres| - i, 0, 2
  {
    Refill(shuffle, centres, hexCounts, max, shuffles, i, draws, start, mapping, resourceCount);
    NextIteration(shuffle, centres, hexCounts, max, shuffles + 1, i, shuffle(shuffles), DrawList(shuffle, shuffles + 1), i,
                  mapping, resourceCount);
  }

  /** The rest of an iteration, once the list has been refilled if it was empty. */
  lemma {:induction false} NextIteration<C, K, V>(shuffle: nat -> seq<K>, centres: seq<C>, hexCounts: map<K, V>, max: int,
                                                  shuffles: nat, i: nat, resourceList: seq<K>, draws: seq<K>, start: nat,
                                                  mapping: map<C, (K, V)>, resourceCount: map<K, int>)
    requires Shuffles(shuffle, hexCounts.Keys) && i < |centres|
    requires Ready(shuffle, centres, hexCounts, max, shuffles, i, resourceList, draws, start, mapping, resourceCount)
    ensures Outcome(centres, hexCounts, max, shuffle, i,
                    PopNext(centres, hexCounts, max, shuffle, i, resourceList, shuffles, mapping, resourceCount))
    decreases |centres| - i, 0, 1
  {
    if resourceList != [] {
      var r, mapping', resourceCount', out :=
        AdvanceOutcome(shuffle, centres, hexCounts, max, shuffles, i, resourceList, draws, start, mapping, resourceCount);
      assert PopNext(centres, hexCounts, max, shuffle, i, resourceList, shuffles, mapping, resourceCount) == out;
    }
  }

  /** One iteration on a nonempty list, and the rest of the loop after it. */
  lemma {:induction false} AdvanceOutcome<C, K, V>(shuffle: nat -> seq<K>, centres: seq<C>, hexCounts: map<K, V>, max: int,
                                                   shuffles: nat, i: nat, resourceList: seq<K>, draws: seq<K>, start: nat,
                                                   mapping: map<C, (K, V)>, resourceCount: map<K, int>)
    returns (r: K, mapping': map<C, (K, V)>, resourceCount': map<K, int>, out: (Option<map<C, (K, V)>>, nat))
    requires Shuffles(shuffle, hexCounts.Keys)
    requires Ready(shuffle, centres, hexCounts, max, shuffles, i, resourceList, draws, start, mapping, resourceCount)
    requires i < |centres| && resourceList != []
    ensures r == resourceList[|resourceList| - 1] && r in resourceCount && r in hexCounts
    ensures mapping' == if resourceCount[r] < max then mapping[centres[i] := (r, hexCounts[r])] else mapping
    ensures resourceCount' == if resourceCount[r] < max then resourceCount[r := resourceCount[r] + 1] else resourceCount
    ensures out == RunFrom(centres, hexCounts, max, shuffle, i + 1, resourceList[..|resourceList| - 1], shuffles,
                           mapping', resourceCount')
    ensures Outcome(centres, hexCounts, max, shuffle, i, out)
    decreases |centres| - i, 0, 0
  {
    r := resourceList[|resourceList| - 1];
    var rest := resourceList[..|resourceList| - 1];
    PopStep(shuffle, hexCounts.Keys, shuffles, i, resourceList, draws, start);
    mapping' := if resourceCount[r] < max then mapping[centres[i] := (r, hexCounts[r])] else mapping;
    resourceCount' := if resourceCount[r] < max then resourceCount[r := resourceCount[r] + 1] else resourceCount;
    CapStep(centres, hexCounts, max, draws, i, mapping, resourceCount, mapping', resourceCount');
    out := RunFrom(centres, hexCounts, max, shuffle, i + 1, rest, shuffles, mapping', resourceCount');
    RunFromMeaning(shuffle, centres, hexCounts, max, shuffles, i + 1, rest, draws, start, mapping', resourceCount');
    OutcomeWithNames(centres, hexCounts, max, shuffle, i, r, out);
  }

  /** With at least one resource name, what the loop promises from centre i + 1 it promises from centre i. */
  lemma OutcomeWithNames<C, K, V>(centres: seq<C>, hexCounts: map<K, V>, max: int, shuffle: nat -> seq<K>, i: nat, r: K,
                                  out: (Option<map<C, (K, V)>>, nat))
    requires r in hexCounts && Outcome(centres, hexCounts, max, shuffle, i + 1, out)
    ensures Outcome(centres, hexCounts, max, shuffle, i, out)
  {
    assert r in hexCounts.Keys;
  }

  /**
   * assign_resource on shuffles of the names of hex_counts fails only when
   * there are no names and at least one centre; otherwise the mapping is
   * Assigned for the draws of the shuffles made, which were all needed.
   */
  lemma AssignmentMeaning<C, K, V>(centres: seq<C>, hexCounts: map<K, V>, max: int, shuffle: nat -> seq<K>)
    requires Shuffles(shuffle, hexCounts.Keys)
    ensures Outcome(centres, hexCounts, max, shuffle, 0, Assignment(centres, hexCounts, max, shuffle))
  {
    LoopStart(shuffle, centres, hexCounts, max);
    RunFromMeaning(shuffle, centres, hexCounts, max, 1, 0, shuffle(0), DrawList(shuffle, 1), 0, map[],
                   map r | r in hexCounts.Keys :: 0);
  }

  /** The names in a shuffled list are the resource names. */
  lemma ShuffledNames<K>(shuffle: nat -> seq<K>, keys: set<K>, j: nat)
    requires Shuffles(shuffle, keys)
    ensures forall r :: r in shuffle(j) ==> r in keys
  {
    assert multiset(shuffle(j)) == multiset(keys);
    forall r | r in shuffle(j) ensures r in keys {
      assert r in multiset(shuffle(j));
    }
  }

  /**
   * The loop of assign_resource. `shuffles` is the number of random.shuffle
   * calls: the first one, and one per refill, which happens only when the list
   * is empty. With no resource names the first pop fails (None). Otherwise the
   * mapping is Assigned for the draws popped in order.
   */
  method AssignResource<C(==), K(==), V>(hexCenters: seq<C>, hexCounts: map<K, V>, max: int, shuffle: nat -> seq<K>)
    returns (result: Option<map<C, (K, V)>>, shuffles: nat)
    requires Shuffles(shuffle, hexCounts.Keys)
    ensures (result, shuffles) == Assignment(hexCenters, hexCounts, max, shuffle)
    ensures shuffles >= 1
    ensures result.None? <==> |hexCounts.Keys| == 0 && |hexCenters| > 0
    ensures result.Some? ==> |hexCenters| <= |DrawList(shuffle, shuffles)|
    ensures result.Some? && shuffles > 1 ==> |DrawList(shuffle, shuffles - 1)| < |hexCenters|
    ensures result.Some? ==> forall i :: 0 <= i < |hexCenters| ==> DrawList(shuffle, shuffles)[i] in hexCounts
    ensures result.Some? ==> result.value == Assigned(hexCenters, hexCounts, max, DrawList(shuffle, shuffles), |hexCenters|)
  {
    var resourceList := shuffle(0);
    ShuffledNames(shuffle, hexCounts.Keys, 0);
    shuffles := 1;
    var mapping: map<C, (K, V)> := map[];
    var resourceCount: map<K, int> := map r | r in hexCounts.Keys :: 0;
    for i := 0 to |hexCenters|
      invariant RunFrom(hexCenters, hexCounts, max, shuffle, i, resourceList, shuffles, mapping, resourceCount)
                == Assignment(hexCenters, hexCounts, max, shuffle)
      invariant resourceCount.Keys == hexCounts.Keys
      invariant forall r :: r in resourceList ==> r in hexCounts
    {
      if resourceList == [] {
        ShuffledNames(shuffle, hexCounts.Keys, shuffles);
        resourceList := shuffle(shuffles);
        shuffles := shuffles + 1;
      }
      if resourceList == [] {
        AssignmentMeaning(hexCenters, hexCounts, max, shuffle);
        return None, shuffles;
      }
      var resource := resourceList[|resourceList| - 1];
      resourceList := resourceList[..|resourceList| - 1];
      if resourceCount[resource] < max {
        mapping := mapping[hexCenters[i] := (resource, hexCounts[resource])];
        resourceCount := resourceCount[resource := resourceCount[resource] + 1];
      }
    }
    result := Some(mapping);
    AssignmentMeaning(hexCenters, hexCounts, max, shuffle);
  }

  // ---------------------------------------------------------------------------
  // What the mapping promises

  /**
   * Every key of the mapping is a centre that drew a resource under the cap,
   * and its value is that resource with its hex_counts entry.
   */
  lemma {:induction false} AssignedEntries<C, K, V>(centres: seq<C>, hexCounts: map<K, V>, max: int, draws: seq<K>, n: nat)
    requires n <= |centres| && n <= |draws| && forall j :: 0 <= j < n ==> draws[j] in hexCounts
    ensures forall c :: c in Assigned(centres, hexCounts, max, draws, n) ==>
      exists i :: (0 <= i < n && centres[i] == c && Taken(draws, max, i) &&
        Assigned(centres, hexCounts, max, draws, n)[c] == (draws[i], hexCounts[draws[i]]))
  {
    if n > 0 {
      AssignedEntries(centres, hexCounts, max, draws, n - 1);
    }
  }

  /** A centre whose draw was under the cap is mapped (to the last such draw, should centres repeat). */
  lemma {:induction false} TakenIsMapped<C, K, V>(centres: seq<C>, hexCounts: map<K, V>, max: int, draws: seq<K>, n: nat, i: nat)
    requires n <= |centres| && n <= |draws| && forall j :: 0 <= j < n ==> draws[j] in hexCounts
    requires i < n && Taken(draws, max, i)
    ensures centres[i] in Assigned(centres, hexCounts, max, draws, n)
  {
    if i < n - 1 {
      TakenIsMapped(centres, hexCounts, max, draws, n - 1, i);
    }
  }

  /** Distinct centres: centre i is mapped exactly when its draw was under the cap, and to that draw. */
  lemma MappedIffUnderCap<C, K, V>(centres: seq<C>, hexCounts: map<K, V>, max: int, draws: seq<K>, n: nat, i: nat)
    requires n <= |centres| && n <= |draws| && forall j :: 0 <= j < n ==> draws[j] in hexCounts
    requires forall j, k :: 0 <= j < k < |centres| ==> centres[j] != centres[k]
    requires i < n
    ensures centres[i] in Assigned(centres, hexCounts, max, draws, n) <==> Taken(draws, max, i)
    ensures Taken(draws, max, i) ==> Assigned(centres, hexCounts, max, draws, n)[centres[i]] == (draws[i], hexCounts[draws[i]])
  {
    AssignedEntries(centres, hexCounts, max, draws, n);
    if centres[i] in Assigned(centres, hexCounts, max, draws, n) {
      var j :| 0 <= j < n && centres[j] == centres[i] && Taken(draws, max, j) &&
        Assigned(centres, hexCounts, max, draws, n)[centres[i]] == (draws[j], hexCounts[draws[j]]);
      assert j == i;
    }
    if Taken(draws, max, i) {
      TakenIsMapped(centres, hexCounts, max, draws, n, i);
    }
  }

  /** resource_count never passes the cap: at most max_resource_count, and 0 when the cap is not positive. */
  lemma {:induction false} CountWithinCap<K>(draws: seq<K>, max: int, r: K, n: nat)
    requires n <= |draws|
    ensures TakenCount(draws, max, r, n) <= if max < 0 then 0 else max
  {
    if n > 0 {
      CountWithinCap(draws, max, r, n - 1);
    }
  }

  /** With max_resource_count at most 0 the mapping is empty. */
  lemma {:induction false} NoCapNoMapping<C, K, V>(centres: seq<C>, hexCounts: map<K, V>, max: int, draws: seq<K>, n: nat)
    requires n <= |centres| && n <= |draws| && forall j :: 0 <= j < n ==> draws[j] in hexCounts
    requires max <= 0
    ensures Assigned(centres, hexCounts, max, draws, n) == map[]
  {
    if n > 0 {
      NoCapNoMapping(centres, hexCounts, max, draws, n - 1);
    }
  }

  /** The centres mapped to r. */
  function MappedTo<C, K(==), V>(m: map<C, (K, V)>, r: K): set<C>
  {
    set c | c in m && m[c].0 == r
  }

  /** Distinct centres: the centres mapped to r are exactly resource_count[r] many. */
  lemma {:induction false} MappedCount<C, K, V>(centres: seq<C>, hexCounts: map<K, V>, max: int, draws: seq<K>, n: nat, r: K)
    requires n <= |centres| && n <= |draws| && forall j :: 0 <= j < n ==> draws[j] in hexCounts
    requires forall j, k :: 0 <= j < k < |centres| ==> centres[j] != centres[k]
    ensures |MappedTo(Assigned(centres, hexCounts, max, draws, n), r)| == TakenCount(draws, max, r, n)
  {
    if n > 0 {
      var before := Assigned(centres, hexCounts, max, draws, n - 1);
      MappedCount(centres, hexCounts, max, draws, n - 1, r);
      if Taken(draws, max, n - 1) {
        assert centres[n - 1] !in before by {
          AssignedEntries(centres, hexCounts, max, draws, n - 1);
        }
        if draws[n - 1] == r {
          assert MappedTo(Assigned(centres, hexCounts, max, draws, n), r) == MappedTo(before, r) + {centres[n - 1]};
        } else {
          assert MappedTo(Assigned(centres, hexCounts, max, draws, n), r) == MappedTo(before, r);
        }
      }
    }
  }

  /** A taken count is at most the number of draws of r. */
  lemma {:induction false} CountAtMostDraws<K>(draws: seq<K>, max: int, r: K, n: nat)
    requires n <= |draws|
    ensures TakenCount(draws, max, r, n) <= multiset(draws[..n])[r]
  {
    if n > 0 {
      CountAtMostDraws(draws, max, r, n - 1);
      assert draws[..n] == draws[..n - 1] + [draws[n - 1]];
    }
  }

  /** A resource name occurs once in the bag of the names. */
  lemma NameOnce<K>(keys: set<K>, r: K)
    requires r in keys
    ensures multiset(keys)[r] == 1
  {
    assert r in multiset(keys);
  }

  /** Each name in keys occurs q times in s. */
  ghost predicate DrawnTimes<K>(s: seq<K>, keys: set<K>, q: nat)
  {
    forall r :: r in keys ==> multiset(s)[r] == q
  }

  /** Each element of s follows fewer than q earlier copies of itself. */
  ghost predicate EarlierFewer<K>(s: seq<K>, q: nat)
  {
    forall i :: 0 <= i < |s| ==> multiset(s[..i])[s[i]] < q
  }

  /** Appending a block that holds each name once adds one to every name's count. */
  lemma CountStep<K>(prev: seq<K>, block: seq<K>, all: seq<K>, keys: set<K>, q: nat)
    requires DrawnTimes(prev, keys, q)
    requires multiset(block) == multiset(keys) && all == prev + block
    ensures DrawnTimes(all, keys, q + 1)
  {
    forall r | r in keys ensures multiset(all)[r] == q + 1 {
      NameOnce(keys, r);
    }
  }

  /** The blocks of q + 1 shuffles are those of q shuffles followed by the next one. */
  lemma NextBlock<K>(shuffle: nat -> seq<K>, keys: set<K>, q: nat) returns (prev: seq<K>, block: seq<K>, all: seq<K>)
    requires Shuffles(shuffle, keys)
    ensures prev == DrawList(shuffle, q) && all == DrawList(shuffle, q + 1)
    ensures multiset(block) == multiset(keys) && all == prev + block
  {
    BlockDrawsEachOnce(shuffle, keys, q);
    prev, block, all := DrawList(shuffle, q), PopOrder(shuffle(q)), DrawList(shuffle, q + 1);
  }

  /** Within a block that holds each resource once, a draw meets only the q earlier blocks' copies of its resource. */
  lemma LaterBlockDraw<K>(prev: seq<K>, block: seq<K>, all: seq<K>, keys: set<K>, q: nat, i: nat)
    requires DrawnTimes(prev, keys, q)
    requires multiset(block) == multiset(keys) && all == prev + block && |prev| <= i < |all|
    ensures multiset(all[..i])[all[i]] == q
  {
    var m := i - |prev|;
    var r := block[m];
    assert all[i] == r && all[..i] == prev + block[..m];
    assert block == block[..m] + [r] + block[m + 1..];
    assert r in multiset(block);
    NameOnce(keys, r);
  }

  /** A draw of prev keeps its place and its earlier draws in prev + block. */
  lemma EarlierBlockDraw<K>(prev: seq<K>, block: seq<K>, all: seq<K>, q: nat, i: nat)
    requires EarlierFewer(prev, q) && all == prev + block && i < |prev|
    ensures multiset(all[..i])[all[i]] < q
  {
    assert all[i] == prev[i] && all[..i] == prev[..i];
  }

  /** Appending such a block keeps every draw behind fewer than q + 1 earlier draws of its resource. */
  lemma EarlierStep<K>(prev: seq<K>, block: seq<K>, all: seq<K>, keys: set<K>, q: nat)
    requires EarlierFewer(prev, q) && DrawnTimes(prev, keys, q)
    requires multiset(block) == multiset(keys) && all == prev + block
    ensures EarlierFewer(all, q + 1)
  {
    forall i | 0 <= i < |all| ensures multiset(all[..i])[all[i]] < q + 1 {
      if i < |prev| {
        EarlierBlockDraw(prev, block, all, q, i);
      } else {
        LaterBlockDraw(prev, block, all, keys, q, i);
      }
    }
  }

  /**
   * After q full shuffles each resource has been drawn q times, and each draw
   * follows at most q - 1 earlier draws of its resource.
   */
  lemma {:induction false} EarlierDraws<K>(shuffle: nat -> seq<K>, keys: set<K>, q: nat)
    requires Shuffles(shuffle, keys)
    ensures DrawnTimes(DrawList(shuffle, q), keys, q) && EarlierFewer(DrawList(shuffle, q), q)
  {
    if q > 0 {
      var p := q - 1;
      EarlierDraws(shuffle, keys, p);
      var prev, block, all := NextBlock(shuffle, keys, p);
      CountStep(prev, block, all, keys, p);
      EarlierStep(prev, block, all, keys, p);
    }
  }

  /**
   * When max_resource_count * |resources| covers the centres, every draw is
   * under the cap: no centre is left unmapped. This is the case of main's call,
   * 19 centres, 6 resources and a cap of 4.
   */
  lemma AllTakenWhenCapSuffices<K>(shuffle: nat -> seq<K>, keys: set<K>, max: int, shuffles: nat, count: nat, i: nat)
    requires Shuffles(shuffle, keys)
    requires count <= |DrawList(shuffle, shuffles)| && count <= max * |keys|
    requires i < count
    ensures Taken(DrawList(shuffle, shuffles), max, i)
  {
    NonPositiveCap(max, |keys|);
    var draws, full := DrawList(shuffle, shuffles), DrawList(shuffle, max);
    DrawListLength(shuffle, keys, max);
    SharedDraws(shuffle, shuffles, max, i);
    EarlierDraws(shuffle, keys, max);
    assert multiset(full[..i])[full[i]] < max;
    CountAtMostDraws(draws, max, draws[i], i);
  }

  /** A cap of at most 0 admits no draw. */
  lemma NonPositiveCap(max: int, n: nat)
    ensures max <= 0 ==> max * n <= 0
  {
  }

  /** The draws of any two numbers of shuffles agree where both reach. */
  lemma SharedDraws<K>(shuffle: nat -> seq<K>, q: nat, q': nat, i: nat)
    requires i < |DrawList(shuffle, q)| && i < |DrawList(shuffle, q')|
    ensures DrawList(shuffle, q)[..i] == DrawList(shuffle, q')[..i] && DrawList(shuffle, q)[i] == DrawList(shuffle, q')[i]
  {
    if q <= q' {
      DrawListPrefix(shuffle, q, q');
    } else {
      DrawListPrefix(shuffle, q', q);
    }
  }

  /**
   * main's call assign_resource(hex_centers, hex_counts, 4) with enough cap:
   * the result maps every centre.
   */
  lemma EveryCentreMapped<C, K, V>(centres: seq<C>, hexCounts: map<K, V>, max: int, shuffle: nat -> seq<K>, shuffles: nat)
    requires Shuffles(shuffle, hexCounts.Keys)
    requires |centres| <= |DrawList(shuffle, shuffles)| && |centres| <= max * |hexCounts.Keys|
    ensures forall i :: 0 <= i < |DrawList(shuffle, shuffles)| ==> DrawList(shuffle, shuffles)[i] in hexCounts
    ensures forall i :: 0 <= i < |centres| ==>
      centres[i] in Assigned(centres, hexCounts, max, DrawList(shuffle, shuffles), |centres|)
  {
    DrawListKeys(shuffle, hexCounts.Keys, shuffles);
    forall i | 0 <= i < |centres|
      ensures centres[i] in Assigned(centres, hexCounts, max, DrawList(shuffle, shuffles), |centres|)
    {
      AllTakenWhenCapSuffices(shuffle, hexCounts.Keys, max, shuffles, |centres|, i);
      TakenIsMapped(centres, hexCounts, max, DrawList(shuffle, shuffles), |centres|, i);
    }
  }
}
