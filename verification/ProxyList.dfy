/** Merging and pinning of the node list: ui/clash_api_tab_helpers.go, on all lists, also with repeated
    names. */
module ProxyList {

  /** `info` stands for the fields the machine reports besides name and delay. */
  datatype Proxy = Proxy(name: string, delay: int, info: string)

  const DIRECT := "direct-out"

  function Names(list: seq<Proxy>): (r: seq<string>)
    ensures |r| == |list| && forall i | 0 <= i < |r| :: r[i] == list[i].name
  {
    if list == [] then [] else Names(list[..|list| - 1]) + [list[|list| - 1].name]
  }

  /** The elements whose name is (not) in the set, in their order. */
  function Pick(list: seq<Proxy>, names: set<string>, keep: bool): (r: seq<Proxy>)
  {
    if list == [] then []
    else
      var rest, p := Pick(list[..|list| - 1], names, keep), list[|list| - 1];
      if (p.name in names) == keep then rest + [p] else rest
  }

  lemma {:induction false} PickHas(list: seq<Proxy>, names: set<string>, keep: bool)
    ensures forall p :: p in Pick(list, names, keep) <==> p in list && (p.name in names) == keep
  {
    if list != [] { PickHas(list[..|list| - 1], names, keep); }
  }

  function NameSet(list: seq<Proxy>): set<string> {
    set p <- list :: p.name
  }

  // ------------------------------------------------------------------- merge

  /** The last element of that name. */
  function ByName(list: seq<Proxy>): map<string, Proxy> {
    if list == [] then map[]
    else ByName(list[..|list| - 1])[list[|list| - 1].name := list[|list| - 1]]
  }

  /** Rows already on screen, in their order, with the machine's data and the local delay. */
  function Survivors(current: seq<Proxy>, byName: map<string, Proxy>): seq<Proxy> {
    if current == [] then []
    else
      var rest, row := Survivors(current[..|current| - 1], byName), current[|current| - 1];
      if row.name in byName then rest + [byName[row.name].(delay := row.delay)] else rest
  }

  function Merge(current: seq<Proxy>, answer: seq<Proxy>): seq<Proxy> {
    if current == [] then answer
    else Survivors(current, ByName(answer)) + Pick(answer, NameSet(current), false)
  }

  lemma {:induction false} ByNameIs(list: seq<Proxy>)
    ensures ByName(list).Keys == NameSet(list)
    ensures forall n <- ByName(list) :: ByName(list)[n].name == n && ByName(list)[n] in list
  {
    if list != [] {
      var front, last := list[..|list| - 1], list[|list| - 1];
      ByNameIs(front);
      assert list == front + [last];
      assert NameSet(list) == NameSet(front) + {last.name};
    }
  }

  function Count(list: seq<Proxy>, n: string): nat {
    if list == [] then 0 else Count(list[..|list| - 1], n) + if list[|list| - 1].name == n then 1 else 0
  }

  lemma {:induction false} CountConcat(a: seq<Proxy>, b: seq<Proxy>, n: string)
    ensures Count(a + b, n) == Count(a, n) + Count(b, n)
    decreases |b|
  {
    if b == [] {
      assert a + b == a;
    } else {
      assert (a + b)[..|a + b| - 1] == a + b[..|b| - 1];
      CountConcat(a, b[..|b| - 1], n);
    }
  }

  lemma NameSetSnoc(list: seq<Proxy>)
    requires list != []
    ensures NameSet(list) == NameSet(list[..|list| - 1]) + {list[|list| - 1].name}
  {
    assert list == list[..|list| - 1] + [list[|list| - 1]];
  }

  lemma {:induction false} CountPositive(list: seq<Proxy>, n: string)
    ensures Count(list, n) > 0 <==> n in NameSet(list)
  {
    if list != [] {
      CountPositive(list[..|list| - 1], n);
      NameSetSnoc(list);
    }
  }

  lemma {:induction false} CountInNames(list: seq<Proxy>, n: string)
    ensures Count(list, n) == multiset(Names(list))[n]
  {
    if list != [] { CountInNames(list[..|list| - 1], n); }
  }

  lemma CountIsMultiplicity(list: seq<Proxy>, n: string)
    ensures Count(list, n) == multiset(Names(list))[n]
    ensures Count(list, n) > 0 <==> n in NameSet(list)
  {
    CountInNames(list, n);
    CountPositive(list, n);
  }

  lemma {:induction false} CountPick(list: seq<Proxy>, names: set<string>, keep: bool, n: string)
    ensures Count(Pick(list, names, keep), n) == if (n in names) == keep then Count(list, n) else 0
  {
    if list != [] {
      var rest, p := Pick(list[..|list| - 1], names, keep), list[|list| - 1];
      CountPick(list[..|list| - 1], names, keep, n);
      CountConcat(rest, [p], n);
      assert Count([p], n) == Count([], n) + (if p.name == n then 1 else 0);
    }
  }

  lemma {:induction false} CountSurvivors(current: seq<Proxy>, byName: map<string, Proxy>, n: string)
    requires forall k <- byName :: byName[k].name == k
    ensures Count(Survivors(current, byName), n) == if n in byName then Count(current, n) else 0
  {
    if current != [] {
      var rest, row := Survivors(current[..|current| - 1], byName), current[|current| - 1];
      CountSurvivors(current[..|current| - 1], byName, n);
      if row.name in byName {
        var p := byName[row.name].(delay := row.delay);
        CountConcat(rest, [p], n);
        assert Count([p], n) == Count([], n) + (if p.name == n then 1 else 0);
      }
    }
  }

  /** How often each name occurs in the merged list. */
  lemma MergeCounts(current: seq<Proxy>, answer: seq<Proxy>, n: string)
    ensures Count(Merge(current, answer), n)
            == if n in NameSet(answer) && n in NameSet(current) then Count(current, n) else Count(answer, n)
  {
    if current != [] {
      ByNameIs(answer);
      CountSurvivors(current, ByName(answer), n);
      CountPick(answer, NameSet(current), false, n);
      CountConcat(Survivors(current, ByName(answer)), Pick(answer, NameSet(current), false), n);
      CountPositive(answer, n);
      CountPositive(current, n);
    }
  }

  /** The merged names are a permutation of the answer ones exactly when every name that survives occurs
      as often on screen as in the answer, in particular when names are distinct. */
  lemma MergePermutesIff(current: seq<Proxy>, answer: seq<Proxy>)
    ensures multiset(Names(Merge(current, answer))) == multiset(Names(answer))
            <==> forall n <- NameSet(current) * NameSet(answer) :: Count(current, n) == Count(answer, n)
  {
    var merged := Merge(current, answer);
    forall n: string
      ensures multiset(Names(merged))[n] == multiset(Names(answer))[n]
              <==> (n in NameSet(current) * NameSet(answer) ==> Count(current, n) == Count(answer, n))
    {
      MergeCounts(current, answer, n);
      CountInNames(merged, n);
      CountInNames(answer, n);
    }
    SameMultiset(Names(merged), Names(answer));
  }

  /** The last row of that name. */
  ghost predicate LastRow(list: seq<Proxy>, n: string, j: nat) {
    j < |list| && list[j].name == n && forall k | j < k < |list| :: list[k].name != n
  }

  lemma {:induction false} ByNameIsLast(list: seq<Proxy>, n: string) returns (j: nat)
    requires n in ByName(list)
    ensures LastRow(list, n, j) && ByName(list)[n] == list[j]
  {
    var last := |list| - 1;
    if list[last].name == n {
      j := last;
    } else {
      j := ByNameIsLast(list[..last], n);
    }
  }

  lemma {:induction false} SurvivorsAre(current: seq<Proxy>, byName: map<string, Proxy>)
    ensures |Survivors(current, byName)| == |Pick(current, byName.Keys, true)|
    ensures forall i | 0 <= i < |Survivors(current, byName)| ::
              var row := Pick(current, byName.Keys, true)[i];
              row.name in byName && Survivors(current, byName)[i] == byName[row.name].(delay := row.delay)
  {
    if current != [] { SurvivorsAre(current[..|current| - 1], byName); }
  }

  /** Survivors first, in screen order, then newcomers in the order of the answer; survivors keep their
      delay, everything else comes from the answer, from its last row of that name. */
  lemma MergeShape(current: seq<Proxy>, answer: seq<Proxy>)
    ensures var kept := Pick(current, NameSet(answer), true);
            var newcomers := Pick(answer, NameSet(current), false);
            var merged := Merge(current, answer);
            && |merged| == |kept| + |newcomers| && merged[|kept|..] == newcomers
            && forall i | 0 <= i < |kept| ::
                 && merged[i].name == kept[i].name && merged[i].delay == kept[i].delay
                 && exists j: nat :: LastRow(answer, kept[i].name, j) && merged[i] == answer[j].(delay := kept[i].delay)
  {
    if current == [] {
      assert NameSet(current) == {};
      PickAll(answer, {}, false);
    } else {
      ByNameIs(answer);
      SurvivorsAre(current, ByName(answer));
      var kept := Pick(current, NameSet(answer), true);
      forall i | 0 <= i < |kept|
        ensures exists j: nat :: LastRow(answer, kept[i].name, j)
                            && Merge(current, answer)[i] == answer[j].(delay := kept[i].delay)
      {
        var j := ByNameIsLast(answer, kept[i].name);
      }
    }
  }

  /** Merging this row with the answer again leaves it as it is. */
  predicate Settled(byName: map<string, Proxy>, p: Proxy) {
    p.name in byName && byName[p.name].(delay := p.delay) == p
  }

  lemma {:induction false} SurviveIff(list: seq<Proxy>, byName: map<string, Proxy>)
    requires forall p <- list :: p.name in byName
    ensures |Survivors(list, byName)| == |list|
    ensures Survivors(list, byName) == list <==> forall p <- list :: Settled(byName, p)
  {
    if list != [] {
      var front, p := list[..|list| - 1], list[|list| - 1];
      SurviveIff(front, byName);
      assert list == front + [p];
      var s := Survivors(list, byName);
      assert s[..|front|] == Survivors(front, byName) && s[|front|] == byName[p.name].(delay := p.delay);
      assert s == list <==> s[..|front|] == front && s[|front|] == p;
    }
  }

  lemma {:induction false} PickNone(list: seq<Proxy>, names: set<string>)
    requires forall p <- list :: p.name in names
    ensures Pick(list, names, false) == []
  {
    if list != [] { PickNone(list[..|list| - 1], names); }
  }

  lemma NameSetConcat(a: seq<Proxy>, b: seq<Proxy>)
    ensures NameSet(a + b) == NameSet(a) + NameSet(b)
  {
    forall n ensures n in NameSet(a + b) <==> n in NameSet(a) || n in NameSet(b) {
      if n in NameSet(a) { var p :| p in a && p.name == n; assert p in a + b; }
      if n in NameSet(b) { var p :| p in b && p.name == n; assert p in a + b; }
    }
  }

  /** Rows of one name that are new on screen differ in their delay only. */
  ghost predicate Consistent(current: seq<Proxy>, answer: seq<Proxy>) {
    forall i, j | 0 <= i < j < |answer| ::
      answer[i].name == answer[j].name && answer[i].name !in NameSet(current) ==> answer[i].info == answer[j].info
  }

  /** Merging the same answer again changes nothing exactly when the answer is consistent about its
      newcomers; in particular when its names are distinct. */
  lemma MergeIdempotentIff(current: seq<Proxy>, answer: seq<Proxy>)
    ensures Merge(Merge(current, answer), answer) == Merge(current, answer) <==> Consistent(current, answer)
  {
    var merged := Merge(current, answer);
    ByNameIs(answer);
    MergedNames(current, answer);
    if merged != [] {
      PickNone(answer, NameSet(merged));
      assert Survivors(merged, ByName(answer)) + [] == Survivors(merged, ByName(answer));
      SurviveIff(merged, ByName(answer));
    } else {
      assert answer != [] ==> answer[0].name in NameSet(answer);
    }
    MergedRows(current, answer);
    ConsistentIff(current, answer);
  }

  lemma ConsistentIff(current: seq<Proxy>, answer: seq<Proxy>)
    ensures Consistent(current, answer)
            <==> forall p <- answer :: p.name !in NameSet(current) ==> Settled(ByName(answer), p)
  {
    ByNameIs(answer);
    if Consistent(current, answer) {
      forall p <- answer | p.name !in NameSet(current) ensures Settled(ByName(answer), p) {
        var i :| 0 <= i < |answer| && answer[i] == p;
        var j := ByNameIsLast(answer, p.name);
        assert i <= j;
      }
    } else {
      var i, j :| 0 <= i < j < |answer| && answer[i].name == answer[j].name
                  && answer[i].name !in NameSet(current) && answer[i].info != answer[j].info;
      assert answer[i] in answer && answer[j] in answer;
    }
  }

  lemma MergedNames(current: seq<Proxy>, answer: seq<Proxy>)
    ensures NameSet(Merge(current, answer)) == NameSet(answer)
  {
    forall n ensures n in NameSet(Merge(current, answer)) <==> n in NameSet(answer) {
      MergeCounts(current, answer, n);
      CountPositive(Merge(current, answer), n);
      CountPositive(answer, n);
      CountPositive(current, n);
    }
  }

  /** The survivors are settled, so it is up to the newcomers. */
  lemma MergedRows(current: seq<Proxy>, answer: seq<Proxy>)
    ensures (forall p <- Merge(current, answer) :: Settled(ByName(answer), p))
            <==> forall p <- answer :: p.name !in NameSet(current) ==> Settled(ByName(answer), p)
  {
    var byName := ByName(answer);
    if current != [] {
      ByNameIs(answer);
      SurvivorsAre(current, byName);
      PickHas(answer, NameSet(current), false);
      var s, fresh' := Survivors(current, byName), Pick(answer, NameSet(current), false);
      forall p <- s ensures Settled(byName, p) {}
      assert forall p :: p in s + fresh' <==> p in s || p in fresh';
    }
  }

  // ----------------------------------------------------------------- pinning

  /** The first element of that name, if any. */
  function First(list: seq<Proxy>, n: string): (r: seq<Proxy>)
    ensures |r| <= 1 && (r == [] <==> n !in NameSet(list)) && (r != [] ==> r[0].name == n && r[0] in list)
  {
    if list == [] then []
    else
      assert list == list[..|list| - 1] + [list[|list| - 1]];
      var rest := First(list[..|list| - 1], n);
      if rest != [] then rest else if list[|list| - 1].name == n then [list[|list| - 1]] else []
  }

  /** The names lifted to the top of this list. */
  function Pinned(list: seq<Proxy>, active: string): set<string> {
    set n <- NameSet(list) | n == DIRECT || (n != "" && n == active)
  }

  function Second(list: seq<Proxy>, active: string): seq<Proxy> {
    if active == "" || active == DIRECT then [] else First(list, active)
  }

  function Top(list: seq<Proxy>, active: string): seq<Proxy> {
    First(list, DIRECT) + Second(list, active)
  }

  function Reorder(list: seq<Proxy>, active: string): seq<Proxy> {
    Top(list, active) + Pick(list, Pinned(list, active), false)
  }

  lemma {:induction false} PickConcat(a: seq<Proxy>, b: seq<Proxy>, names: set<string>, keep: bool)
    ensures Pick(a + b, names, keep) == Pick(a, names, keep) + Pick(b, names, keep)
    decreases |b|
  {
    if b == [] {
      assert a + b == a;
    } else {
      assert (a + b)[..|a + b| - 1] == a + b[..|b| - 1];
      PickConcat(a, b[..|b| - 1], names, keep);
    }
  }

  lemma {:induction false} PickAll(list: seq<Proxy>, names: set<string>, keep: bool)
    requires forall p <- list :: (p.name in names) == keep
    ensures Pick(list, names, keep) == list
  {
    if list != [] { PickAll(list[..|list| - 1], names, keep); }
  }

  lemma {:induction false} FirstConcat(a: seq<Proxy>, b: seq<Proxy>, n: string)
    ensures First(a + b, n) == if First(a, n) != [] then First(a, n) else First(b, n)
    decreases |b|
  {
    if b == [] {
      assert a + b == a;
    } else {
      assert (a + b)[..|a + b| - 1] == a + b[..|b| - 1];
      FirstConcat(a, b[..|b| - 1], n);
    }
  }

  /** The top: direct-out first when the list has it, then the active node when it is another one. */
  lemma PinnedOnTop(list: seq<Proxy>, active: string)
    ensures var r := Reorder(list, active);
            && ("direct-out" in NameSet(list) ==> r != [] && r[0].name == "direct-out" && r[0] in list)
            && (active != "" && active != "direct-out" && active in NameSet(list) ==>
                  var k := if "direct-out" in NameSet(list) then 1 else 0;
                  |r| > k && r[k].name == active && r[k] in list)
    ensures (set p <- Top(list, active) :: p.name) == Pinned(list, active)
  {
    var top := Top(list, active);
    var second := Second(list, active);
    assert top == First(list, DIRECT) + second;
    assert forall n <- Pinned(list, active) :: exists p <- top :: p.name == n;
  }

  /** The rest keeps its elements and their order; nothing below the top carries a pinned name. */
  lemma RestIsStable(list: seq<Proxy>, active: string)
    ensures var r, pinned := Reorder(list, active), Pinned(list, active);
            Pick(r, pinned, false) == Pick(list, pinned, false) == r[|Top(list, active)|..]
    ensures NameSet(Reorder(list, active)) == NameSet(list)
  {
    var top, pinned := Top(list, active), Pinned(list, active);
    var rest := Pick(list, pinned, false);
    TopNames(list, active);
    PickNone(top, pinned);
    PickHas(list, pinned, false);
    PickAll(rest, pinned, false);
    PickConcat(top, rest, pinned, false);
    assert [] + rest == rest;
    NameSetConcat(top, rest);
    forall n | n in NameSet(list) && n !in pinned ensures n in NameSet(rest) {
      var p :| p in list && p.name == n;
      assert p in rest;
    }
  }

  lemma TopNames(list: seq<Proxy>, active: string)
    ensures NameSet(Top(list, active)) == Pinned(list, active)
  {
    NameSetConcat(First(list, DIRECT), Second(list, active));
    FirstNames(list, DIRECT);
    FirstNames(list, active);
  }

  lemma FirstNames(list: seq<Proxy>, n: string)
    ensures NameSet(First(list, n)) == {n} * NameSet(list)
  {
    var r := First(list, n);
    assert r != [] ==> r == [r[0]];
  }

  /** Pinning again changes nothing, also when names repeat. */
  lemma ReorderIdempotent(list: seq<Proxy>, active: string)
    ensures Reorder(Reorder(list, active), active) == Reorder(list, active)
  {
    var r := Reorder(list, active);
    RestIsStable(list, active);
    assert Pinned(r, active) == Pinned(list, active);
    FirstAgain(list, active);
    SecondAgain(list, active);
  }

  lemma FirstAgain(list: seq<Proxy>, active: string)
    ensures First(Reorder(list, active), DIRECT) == First(list, DIRECT)
  {
    var direct, rest := First(list, DIRECT), Pick(list, Pinned(list, active), false);
    if direct != [] {
      FirstOfFirst(list, DIRECT);
      FirstInMiddle([], direct, Second(list, active) + rest, DIRECT);
      assert [] + direct + (Second(list, active) + rest) == Reorder(list, active);
    } else {
      RestIsStable(list, active);
    }
  }

  lemma SecondAgain(list: seq<Proxy>, active: string)
    ensures Second(Reorder(list, active), active) == Second(list, active)
  {
    if active != "" && active != DIRECT {
      if First(list, active) != [] {
        FirstOfFirst(list, active);
        NotDirect(list, active);
        FirstInMiddle(First(list, DIRECT), First(list, active), Pick(list, Pinned(list, active), false), active);
      } else {
        RestIsStable(list, active);
      }
    }
  }

  lemma FirstInMiddle(a: seq<Proxy>, b: seq<Proxy>, c: seq<Proxy>, n: string)
    requires First(a, n) == [] && First(b, n) == b && b != []
    ensures First(a + b + c, n) == b
  {
    FirstConcat(a, b, n);
    FirstConcat(a + b, c, n);
  }

  lemma NotDirect(list: seq<Proxy>, active: string)
    requires active != DIRECT
    ensures First(First(list, DIRECT), active) == []
  {
    FirstNames(list, DIRECT);
  }

  lemma FirstOfFirst(list: seq<Proxy>, n: string)
    ensures First(First(list, n), n) == First(list, n)
  {
    var r := First(list, n);
    assert r != [] ==> r == [r[0]];
  }

  /** Nothing is lost exactly when no pinned name repeats: only its first row survives. */
  lemma ReorderPermutesIff(list: seq<Proxy>, active: string)
    ensures multiset(Names(Reorder(list, active))) == multiset(Names(list))
            <==> forall n <- Pinned(list, active) :: Count(list, n) == 1
  {
    var r, pinned := Reorder(list, active), Pinned(list, active);
    forall n ensures n in pinned ==> (multiset(Names(r))[n] == multiset(Names(list))[n] <==> Count(list, n) == 1)
             ensures n !in pinned ==> multiset(Names(r))[n] == multiset(Names(list))[n]
    {
      ReorderCounts(list, active, n);
      CountIsMultiplicity(r, n);
      CountIsMultiplicity(list, n);
    }
    SameMultiset(Names(r), Names(list));
  }

  lemma SameMultiset(a: seq<string>, b: seq<string>)
    ensures multiset(a) == multiset(b) <==> forall n :: multiset(a)[n] == multiset(b)[n]
  {}

  lemma ReorderCounts(list: seq<Proxy>, active: string, n: string)
    ensures Count(Reorder(list, active), n) == if n in Pinned(list, active) then 1 else Count(list, n)
  {
    var direct := First(list, DIRECT);
    var second := Second(list, active);
    var rest := Pick(list, Pinned(list, active), false);
    CountConcat(direct + second, rest, n);
    CountConcat(direct, second, n);
    CountPick(list, Pinned(list, active), false, n);
    CountFirst(list, DIRECT, n);
    CountFirst(list, active, n);
  }

  lemma CountFirst(list: seq<Proxy>, name: string, n: string)
    ensures Count(First(list, name), n) == if n == name && n in NameSet(list) then 1 else 0
  {
    var r := First(list, name);
    if r != [] {
      assert r == [r[0]] && r[..0] == [];
      assert Count(r, n) == Count([], n) + if r[0].name == n then 1 else 0;
    }
  }

  // ----------------------------------------------------------------- methods

  lemma Snoc(list: seq<Proxy>, i: nat)
    requires i < |list|
    ensures list[..i + 1][..|list[..i + 1]| - 1] == list[..i] && list[..i + 1] == list[..i] + [list[i]]
  {}

  method MergePreservingOrder(current: seq<Proxy>, answer: seq<Proxy>) returns (result: seq<Proxy>)
    ensures result == Merge(current, answer)
  {
    if |current| == 0 { return answer; }
    var byName: map<string, Proxy> := map[];
    for i := 0 to |answer|
      invariant byName == ByName(answer[..i])
    {
      Snoc(answer, i);
      byName := byName[answer[i].name := answer[i]];
    }
    assert answer[..|answer|] == answer;
    result := [];
    var kept: set<string> := {};
    for i := 0 to |current|
      invariant result == Survivors(current[..i], byName)
      invariant kept == NameSet(current[..i]) * byName.Keys
    {
      Snoc(current, i);
      var row := current[i];
      assert NameSet(current[..i + 1]) == NameSet(current[..i]) + {row.name};
      if row.name !in byName { continue; }
      var updated := byName[row.name];
      updated := updated.(delay := row.delay);
      result := result + [updated];
      kept := kept + {row.name};
    }
    assert current[..|current|] == current;
    ByNameIs(answer);
    ghost var survivors := result;
    for i := 0 to |answer|
      invariant result == survivors + Pick(answer[..i], NameSet(current), false)
    {
      Snoc(answer, i);
      assert answer[i].name in NameSet(answer);
      if answer[i].name in kept { continue; }
      result := result + [answer[i]];
    }
  }

  lemma NothingPinned(list: seq<Proxy>, active: string)
    requires First(list, DIRECT) == [] && (active == "" || First(list, active) == [])
    ensures Reorder(list, active) == list
  {
    assert Pinned(list, active) == {} && Top(list, active) == [];
    PickAll(list, {}, false);
    assert [] + list == list;
  }

  lemma UsedIsPinned(list: seq<Proxy>, active: string, used: set<string>)
    requires used <= {DIRECT, active}
    requires DIRECT in used <==> First(list, DIRECT) != []
    requires active != DIRECT ==> (active in used <==> active != "" && First(list, active) != [])
    ensures used == Pinned(list, active)
  {
    forall n ensures n in used <==> n in Pinned(list, active) {}
  }

  method ReorderWithPinned(list: seq<Proxy>, active: string) returns (result: seq<Proxy>)
    ensures result == Reorder(list, active)
  {
    if |list| == 0 { return list; }
    var hasDirect := HasName(list, DIRECT);
    var hasActive := false;
    if active != "" { hasActive := HasName(list, active); }
    if !hasDirect && (!hasActive || active == "") {
      NothingPinned(list, active);
      return list;
    }
    result := [];
    var used: set<string> := {};
    if hasDirect {
      result := FindFirst(list, DIRECT);
      used := used + {DIRECT};
    }
    if hasActive && active != DIRECT {
      var row := FindFirst(list, active);
      result := result + row;
      used := used + {active};
    }
    UsedIsPinned(list, active, used);
    assert result == Top(list, active);
    var rest := Unused(list, used);
    result := result + rest;
  }

  method Unused(list: seq<Proxy>, used: set<string>) returns (result: seq<Proxy>)
    ensures result == Pick(list, used, false)
  {
    result := [];
    for i := 0 to |list|
      invariant result == Pick(list[..i], used, false)
    {
      Snoc(list, i);
      if list[i].name in used { continue; }
      result := result + [list[i]];
    }
    assert list[..|list|] == list;
  }

  method HasName(list: seq<Proxy>, name: string) returns (found: bool)
    ensures found == (First(list, name) != [])
  {
    found := false;
    for i := 0 to |list|
      invariant found == (First(list[..i], name) != [])
    {
      Snoc(list, i);
      if list[i].name == name { found := true; }
    }
    assert list[..|list|] == list;
  }

  /** The two inner loops that append the first row of a name and stop. */
  method FindFirst(list: seq<Proxy>, name: string) returns (row: seq<Proxy>)
    ensures row == First(list, name)
  {
    row := [];
    for i := 0 to |list|
      invariant First(list[..i], name) == [] && row == []
    {
      Snoc(list, i);
      if list[i].name == name {
        assert First(list[..i + 1], name) == [list[i]];
        assert list == list[..i + 1] + list[i + 1..];
        FirstConcat(list[..i + 1], list[i + 1..], name);
        return [list[i]];
      }
    }
    assert list[..|list|] == list;
  }
}
