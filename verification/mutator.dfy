/**
 * The Mutation Engine (core/mutator.py): rewrites every route-decorated handler of the
 * template so that its path and its name carry a fresh random suffix, and records the
 * original path -> mutated path pairs in a route map.
 *
 * The randomness of `secrets` is an oracle here: `GenerateChaosString` is given the
 * alphabet indices that `secrets.choice` picked, and the transformer is given the
 * suffixes that `generate_chaos_string` returned, in the order they were requested.
 */
module Mutator {
  import opened Wrappers

  /** string.ascii_lowercase: "a" to "z". */
  const AsciiLowercase: string := CharRange('a', 26)
  /** string.digits: "0" to "9". */
  const Digits: string := CharRange('0', 10)
  /** The alphabet of generate_chaos_string: ascii_lowercase + digits, 36 characters. */
  const Alphabet: string := AsciiLowercase + Digits
  /** The default `length` of generate_chaos_string. */
  const ChaosLength: nat := 6
  /** The decorator attributes that mark a route. */
  const RouteVerbs: seq<string> := ["get", "post", "put", "delete"]
  /** The one path that is never mutated. */
  const RootPath: string := "/"

  /** The n consecutive characters from `first` on. */
  function CharRange(first: char, n: nat): (r: string)
    requires first as int + n <= 0xD800
    ensures |r| == n && forall i :: 0 <= i < n ==> r[i] as int == first as int + i
  {
    if n == 0 then [] else CharRange(first, n - 1) + [(first as int + n - 1) as char]
  }

  predicate IsChaosChar(c: char) {
    'a' <= c <= 'z' || '0' <= c <= '9'
  }

  /** Character k of the alphabet: the k-th letter, then the digits. */
  lemma AlphabetAt(k: nat)
    requires k < 36
    ensures |Alphabet| == 36
    ensures Alphabet[k] as int == if k < 26 then 'a' as int + k else '0' as int + (k - 26)
  {
    if k < 26 {
      assert Alphabet[k] == AsciiLowercase[k];
    } else {
      assert Alphabet[k] == Digits[k - 26];
    }
  }

  /** Every character of the alphabet is a chaos character. */
  lemma AlphabetChars()
    ensures |Alphabet| == 36
    ensures forall k :: 0 <= k < |Alphabet| ==> IsChaosChar(Alphabet[k])
  {
    forall k | 0 <= k < |Alphabet| ensures IsChaosChar(Alphabet[k]) {
      AlphabetAt(k);
    }
  }

  /** The alphabet holds exactly the chaos characters. */
  lemma AlphabetIsChaosChars(c: char)
    ensures c in Alphabet <==> IsChaosChar(c)
  {
    AlphabetChars();
    if IsChaosChar(c) {
      AlphabetAt(AlphabetIndex(c));
    }
  }

  predicate IsChaosString(s: string, length: nat) {
    |s| == length && forall i :: 0 <= i < |s| ==> IsChaosChar(s[i])
  }

  /** Every suffix the oracle hands out has the shape generate_chaos_string() gives. */
  predicate ChaosSuffixes(suffixes: seq<string>) {
    forall k :: 0 <= k < |suffixes| ==> IsChaosString(suffixes[k], ChaosLength)
  }

  /**
   * generate_chaos_string(length): one `secrets.choice` over the alphabet per character;
   * `draws[i]` is the index that the i-th choice picked.
   */
  function GenerateChaosString(length: nat, draws: seq<nat>): (s: string)
    requires |draws| == length
    requires forall i :: 0 <= i < |draws| ==> draws[i] < |Alphabet|
    ensures IsChaosString(s, length)
    ensures forall i :: 0 <= i < length ==> s[i] == Alphabet[draws[i]]
  {
    AlphabetChars();
    seq(length, i requires 0 <= i < length => Alphabet[draws[i]])
  }

  /** The alphabet index of a character of the alphabet. */
  function AlphabetIndex(c: char): (k: nat)
    requires IsChaosChar(c)
    ensures k < |Alphabet| && Alphabet[k] == c
  {
    var k := if 'a' <= c <= 'z' then (c as int - 'a' as int) else 26 + (c as int - '0' as int);
    AlphabetAt(k);
    k
  }

  /** The draws that make GenerateChaosString produce `s`. */
  function DrawsFor(s: string): (draws: seq<nat>)
    requires forall i :: 0 <= i < |s| ==> IsChaosChar(s[i])
    ensures |draws| == |s|
    ensures forall i :: 0 <= i < |s| ==> draws[i] < |Alphabet| && Alphabet[draws[i]] == s[i]
  {
    seq(|s|, i requires 0 <= i < |s| => AlphabetIndex(s[i]))
  }

  /** Every string of the right length over the alphabet is a possible chaos string. */
  lemma ChaosStringSurjective(s: string, length: nat)
    requires IsChaosString(s, length)
    ensures GenerateChaosString(length, DrawsFor(s)) == s
  {
    var g := GenerateChaosString(length, DrawsFor(s));
    assert |g| == |s|;
    forall i | 0 <= i < |s| ensures g[i] == s[i] {
    }
  }

  /** The alphabet holds no character twice, so different draws give different strings. */
  lemma ChaosStringInjective(length: nat, d1: seq<nat>, d2: seq<nat>)
    requires |d1| == length && |d2| == length
    requires forall i :: 0 <= i < length ==> d1[i] < |Alphabet| && d2[i] < |Alphabet|
    requires GenerateChaosString(length, d1) == GenerateChaosString(length, d2)
    ensures d1 == d2
  {
    forall i | 0 <= i < length ensures d1[i] == d2[i] {
      assert Alphabet[d1[i]] == GenerateChaosString(length, d1)[i] == Alphabet[d2[i]];
      AlphabetAt(d1[i]);
      AlphabetAt(d2[i]);
    }
  }

  // ---------------------------------------------------------------------------
  // Handlers of the route template, as structured records

  /** A positional argument of a decorator call: a string constant, or anything else. */
  datatype Arg = Const(value: string) | NotConst

  /**
   * A decorator: a call (`@app.get("/x")`) whose callee is an attribute access with
   * name `funcAttr` (None when the callee is a plain name), or anything that is not a call.
   */
  datatype Decorator = Call(funcAttr: Option<string>, args: seq<Arg>) | NotCall

  /** A function definition: its name and its decorator list. */
  datatype Handler = Handler(name: string, decorators: seq<Decorator>)

  /** The route path a decorator declares, when it is a route decorator with a constant path. */
  function RoutePath(d: Decorator): (p: Option<string>)
    ensures p.Some? <==>
      d.Call? && d.funcAttr.Some? && d.funcAttr.value in RouteVerbs && |d.args| > 0 && d.args[0].Const?
    ensures p.Some? ==> p.value == d.args[0].value
  {
    if d.Call? && d.funcAttr.Some? && d.funcAttr.value in RouteVerbs && |d.args| > 0 && d.args[0].Const?
    then Some(d.args[0].value)
    else None
  }

  /** The decorator with its first argument replaced by `path`. */
  function WithPath(d: Decorator, path: string): (d': Decorator)
    requires RoutePath(d).Some?
    ensures RoutePath(d') == Some(path)
    ensures d'.funcAttr == d.funcAttr && d'.args[1..] == d.args[1..]
  {
    d.(args := [Const(path)] + d.args[1..])
  }

  /** `original + "_" + suffix`, the f-string of both the new path and the new name. */
  function Suffixed(original: string, suffix: string): (r: string)
    ensures |r| == |original| + 1 + |suffix|
  {
    original + "_" + suffix
  }

  /** `mutated` is `original` followed by "_" and a chaos suffix. */
  predicate IsMutationOf(original: string, mutated: string) {
    && |mutated| == |original| + 1 + ChaosLength
    && mutated[..|original|] == original
    && mutated[|original|] == '_'
    && IsChaosString(mutated[|original| + 1..], ChaosLength)
  }

  lemma SuffixedIsMutation(original: string, suffix: string)
    requires IsChaosString(suffix, ChaosLength)
    ensures IsMutationOf(original, Suffixed(original, suffix))
    ensures Suffixed(original, suffix) != original
    ensures Suffixed(original, suffix)[|original| + 1..] == suffix
  {
    var m := Suffixed(original, suffix);
    assert m[..|original|] == original;
    assert m[|original| + 1..] == suffix;
  }

  /** Every entry of a route map is the identity on "/" or a mutation of its key. */
  predicate WellFormedRouteMap(m: map<string, string>) {
    forall p :: p in m ==> (p == RootPath && m[p] == RootPath) || (p != RootPath && IsMutationOf(p, m[p]))
  }

  /** How many suffixes visiting these decorators may ask for at most. */
  function RouteSlots(defs: seq<Handler>): (n: nat)
    ensures defs == [] ==> n == 0
  {
    if defs == [] then 0 else RouteSlots(defs[..|defs| - 1]) + |defs[|defs| - 1].decorators|
  }

  /** A prefix of the module never needs more suffixes than the whole module. */
  lemma {:induction false} RouteSlotsPrefix(defs: seq<Handler>, k: nat)
    requires k <= |defs|
    ensures RouteSlots(defs[..k]) <= RouteSlots(defs)
    decreases |defs| - k
  {
    if k < |defs| {
      RouteSlotsPrefix(defs, k + 1);
      assert defs[..k + 1][..k] == defs[..k];
      assert RouteSlots(defs[..k + 1]) == RouteSlots(defs[..k]) + |defs[k].decorators|;
    } else {
      assert defs[..k] == defs;
    }
  }

  // ---------------------------------------------------------------------------
  // visit_FunctionDef, as a specification function over the decorator index

  /** The transformer's view after visiting a handler: the node, the route map, the suffixes consumed. */
  datatype Visit = Visit(node: Handler, routeMap: map<string, string>, used: nat)

  /**
   * The loop of visit_FunctionDef from decorator `i` on: non-route decorators are skipped,
   * "/" is recorded as itself and ends the visit with the node as it stands, any other path
   * takes the next suffix for both its path and the handler name, and the loop goes on.
   */
  function VisitFrom(node: Handler, i: nat, m: map<string, string>, suffixes: seq<string>, used: nat): (v: Visit)
    requires i <= |node.decorators|
    requires used + (|node.decorators| - i) <= |suffixes|
    ensures used <= v.used <= used + (|node.decorators| - i) <= |suffixes|
    ensures |v.node.decorators| == |node.decorators|
    decreases |node.decorators| - i
  {
    if i == |node.decorators| then Visit(node, m, used)
    else
      match RoutePath(node.decorators[i])
      case None => VisitFrom(node, i + 1, m, suffixes, used)
      case Some(p) =>
        if p == RootPath then Visit(node, m[p := p], used)
        else
          var q := Suffixed(p, suffixes[used]);
          var node' := Handler(Suffixed(node.name, suffixes[used]),
                               node.decorators[i := WithPath(node.decorators[i], q)]);
          VisitFrom(node', i + 1, m[p := q], suffixes, used + 1)
  }

  function VisitSpec(node: Handler, m: map<string, string>, suffixes: seq<string>): Visit
    requires |node.decorators| <= |suffixes|
  {
    VisitFrom(node, 0, m, suffixes, 0)
  }

  /** The whole module: every handler in turn, each taking suffixes after the previous ones. */
  datatype Transformed = Transformed(defs: seq<Handler>, routeMap: map<string, string>, used: nat)

  function TransformSpec(defs: seq<Handler>, m: map<string, string>, suffixes: seq<string>): (t: Transformed)
    requires RouteSlots(defs) <= |suffixes|
    ensures |t.defs| == |defs| && t.used <= RouteSlots(defs)
  {
    if defs == [] then Transformed([], m, 0)
    else
      var t := TransformSpec(defs[..|defs| - 1], m, suffixes);
      var v := VisitSpec(defs[|defs| - 1], t.routeMap, suffixes[t.used..]);
      Transformed(t.defs + [v.node], v.routeMap, t.used + v.used)
  }

  // ---------------------------------------------------------------------------
  // Properties of visit_FunctionDef

  /** A handler without decorators is returned as it is and nothing is recorded. */
  lemma NoDecoratorsUnchanged(node: Handler, m: map<string, string>, suffixes: seq<string>)
    requires node.decorators == []
    ensures VisitSpec(node, m, suffixes) == Visit(node, m, 0)
  {
  }

  /** Decorators that are not routes leave the node, the map and the oracle untouched. */
  lemma {:induction false} NonRouteDecoratorsSkipped(node: Handler, i: nat, m: map<string, string>, suffixes: seq<string>, used: nat)
    requires i <= |node.decorators|
    requires used + (|node.decorators| - i) <= |suffixes|
    requires forall j :: i <= j < |node.decorators| ==> RoutePath(node.decorators[j]).None?
    ensures VisitFrom(node, i, m, suffixes, used) == Visit(node, m, used)
    decreases |node.decorators| - i
  {
    if i < |node.decorators| {
      NonRouteDecoratorsSkipped(node, i + 1, m, suffixes, used);
    }
  }

  /** A handler routed at "/" (after any non-route decorators) is returned unchanged, and "/" maps to itself. */
  lemma RootRouteUnchanged(node: Handler, k: nat, m: map<string, string>, suffixes: seq<string>)
    requires |node.decorators| <= |suffixes|
    requires k < |node.decorators| && RoutePath(node.decorators[k]) == Some(RootPath)
    requires forall j :: 0 <= j < k ==> RoutePath(node.decorators[j]).None?
    ensures VisitSpec(node, m, suffixes) == Visit(node, m[RootPath := RootPath], 0)
  {
    SkipToRoute(node, 0, k, m, suffixes, 0);
  }

  /** Skipping non-route decorators up to index k. */
  lemma {:induction false} SkipToRoute(node: Handler, i: nat, k: nat, m: map<string, string>, suffixes: seq<string>, used: nat)
    requires i <= k < |node.decorators|
    requires used + (|node.decorators| - i) <= |suffixes|
    requires forall j :: i <= j < k ==> RoutePath(node.decorators[j]).None?
    ensures VisitFrom(node, i, m, suffixes, used) == VisitFrom(node, k, m, suffixes, used)
    decreases k - i
  {
    if i < k {
      SkipToRoute(node, i + 1, k, m, suffixes, used);
    }
  }

  /** The usual handler: one route decorator with a path other than "/", among non-route decorators. */
  predicate SingleRoute(node: Handler, k: nat) {
    && k < |node.decorators|
    && RoutePath(node.decorators[k]).Some?
    && forall j :: 0 <= j < |node.decorators| && j != k ==> RoutePath(node.decorators[j]).None?
  }

  /**
   * A non-root route path p with suffix h: the map records p -> p_h (replacing any earlier
   * entry for p), the decorator now declares exactly that path, the handler is renamed
   * name_h with the same h, and exactly one suffix is consumed.
   */
  lemma SingleRouteMutated(node: Handler, k: nat, m: map<string, string>, suffixes: seq<string>)
    requires |node.decorators| <= |suffixes|
    requires SingleRoute(node, k) && RoutePath(node.decorators[k]).value != RootPath
    ensures var p := RoutePath(node.decorators[k]).value;
            var h := suffixes[0];
            var v := VisitSpec(node, m, suffixes);
            && v.used == 1
            && v.routeMap == m[p := p + "_" + h]
            && v.node.name == node.name + "_" + h
            && RoutePath(v.node.decorators[k]) == Some(v.routeMap[p])
            && (forall j :: 0 <= j < |node.decorators| && j != k ==> v.node.decorators[j] == node.decorators[j])
  {
    var p := RoutePath(node.decorators[k]).value;
    SkipToRoute(node, 0, k, m, suffixes, 0);
    var q := Suffixed(p, suffixes[0]);
    var node' := Handler(Suffixed(node.name, suffixes[0]), node.decorators[k := WithPath(node.decorators[k], q)]);
    assert forall j :: k < j < |node'.decorators| ==> node'.decorators[j] == node.decorators[j];
    NonRouteDecoratorsSkipped(node', k + 1, m[p := q], suffixes, 1);
  }

  /**
   * The route map part of SingleRouteMutated: p's entry is set to p_h, using one suffix.
   * Kept apart so that proofs about the map alone (LaterRouteOverwrites) do not carry the
   * facts about the rewritten decorators, which keeps them cheap for the solver.
   */
  lemma SingleRouteRecorded(node: Handler, k: nat, m: map<string, string>, suffixes: seq<string>)
    requires |node.decorators| <= |suffixes|
    requires SingleRoute(node, k) && RoutePath(node.decorators[k]).value != RootPath
    ensures var p := RoutePath(node.decorators[k]).value;
            var v := VisitSpec(node, m, suffixes);
            v.used == 1 && v.routeMap == m[p := p + "_" + suffixes[0]]
  {
    SingleRouteMutated(node, k, m, suffixes);
  }

  /** The mutated path of a single non-root route begins with p, is 7 characters longer and differs from p. */
  lemma SingleRouteShape(node: Handler, k: nat, m: map<string, string>, suffixes: seq<string>)
    requires |node.decorators| <= |suffixes| && ChaosSuffixes(suffixes)
    requires SingleRoute(node, k) && RoutePath(node.decorators[k]).value != RootPath
    ensures var p := RoutePath(node.decorators[k]).value;
            var r := VisitSpec(node, m, suffixes).routeMap;
            && p in r
            && IsMutationOf(p, r[p]) && r[p] != p && |r[p]| == |p| + 1 + ChaosLength && r[p][..|p|] == p
  {
    SingleRouteMutated(node, k, m, suffixes);
    SuffixedIsMutation(RoutePath(node.decorators[k]).value, suffixes[0]);
  }

  /** The route map keeps its shape through any visit: "/" to itself, every other key to a mutation of it. */
  lemma {:induction false} VisitFromWellFormed(node: Handler, i: nat, m: map<string, string>, suffixes: seq<string>, used: nat)
    requires i <= |node.decorators|
    requires used + (|node.decorators| - i) <= |suffixes|
    requires ChaosSuffixes(suffixes) && WellFormedRouteMap(m)
    ensures WellFormedRouteMap(VisitFrom(node, i, m, suffixes, used).routeMap)
    decreases |node.decorators| - i
  {
    if i < |node.decorators| {
      match RoutePath(node.decorators[i])
      case None => VisitFromWellFormed(node, i + 1, m, suffixes, used);
      case Some(p) =>
        if p != RootPath {
          var q := Suffixed(p, suffixes[used]);
          SuffixedIsMutation(p, suffixes[used]);
          var node' := Handler(Suffixed(node.name, suffixes[used]),
                               node.decorators[i := WithPath(node.decorators[i], q)]);
          VisitFromWellFormed(node', i + 1, m[p := q], suffixes, used + 1);
        }
    }
  }

  /** Visiting only ever adds or overwrites keys that some decorator of the node declares. */
  lemma {:induction false} VisitFromKeys(node: Handler, i: nat, m: map<string, string>, suffixes: seq<string>, used: nat)
    requires i <= |node.decorators|
    requires used + (|node.decorators| - i) <= |suffixes|
    ensures var r := VisitFrom(node, i, m, suffixes, used).routeMap;
            m.Keys <= r.Keys &&
            forall p :: p in r && (p !in m || r[p] != m[p]) ==>
              exists j :: i <= j < |node.decorators| && RoutePath(node.decorators[j]) == Some(p)
    decreases |node.decorators| - i
  {
    if i < |node.decorators| {
      match RoutePath(node.decorators[i])
      case None => VisitFromKeys(node, i + 1, m, suffixes, used);
      case Some(p) =>
        if p != RootPath {
          var q := Suffixed(p, suffixes[used]);
          var node' := Handler(Suffixed(node.name, suffixes[used]),
                               node.decorators[i := WithPath(node.decorators[i], q)]);
          VisitFromKeys(node', i + 1, m[p := q], suffixes, used + 1);
          var r := VisitFrom(node', i + 1, m[p := q], suffixes, used + 1).routeMap;
          forall p' | p' in r && (p' !in m || r[p'] != m[p'])
            ensures exists j :: i <= j < |node.decorators| && RoutePath(node.decorators[j]) == Some(p')
          {
            if p' == p {
              assert RoutePath(node.decorators[i]) == Some(p');
            } else {
              var j :| i + 1 <= j < |node'.decorators| && RoutePath(node'.decorators[j]) == Some(p');
              assert node'.decorators[j] == node.decorators[j];
            }
          }
        }
    }
  }

  /** The route map after a whole module stays well formed. */
  lemma {:induction false} TransformWellFormed(defs: seq<Handler>, m: map<string, string>, suffixes: seq<string>)
    requires RouteSlots(defs) <= |suffixes| && ChaosSuffixes(suffixes) && WellFormedRouteMap(m)
    ensures WellFormedRouteMap(TransformSpec(defs, m, suffixes).routeMap)
  {
    if defs != [] {
      var t := TransformSpec(defs[..|defs| - 1], m, suffixes);
      TransformWellFormed(defs[..|defs| - 1], m, suffixes);
      VisitFromWellFormed(defs[|defs| - 1], 0, t.routeMap, suffixes[t.used..], 0);
    }
  }

  /** A module of two handlers: the first is visited, then the second with the suffixes after the first's. */
  lemma TransformTwo(first: Handler, second: Handler, m: map<string, string>, suffixes: seq<string>)
    requires RouteSlots([first, second]) <= |suffixes|
    ensures |first.decorators| + |second.decorators| <= |suffixes|
    ensures var v1 := VisitSpec(first, m, suffixes);
            var v2 := VisitSpec(second, v1.routeMap, suffixes[v1.used..]);
            TransformSpec([first, second], m, suffixes) == Transformed([v1.node, v2.node], v2.routeMap, v1.used + v2.used)
  {
    assert [first, second][..1] == [first];
    assert [first][..0] == [];
    assert RouteSlots([first]) == |first.decorators|;
    assert suffixes[0..] == suffixes;
    var v1 := VisitSpec(first, m, suffixes);
    assert TransformSpec([first], m, suffixes) == Transformed([v1.node], v1.routeMap, v1.used);
  }

  /**
   * Later visits overwrite: when two handlers declare the same non-root path, the entry left
   * is the second one's, whatever the first recorded; suffixes are not checked for reuse.
   */
  lemma LaterRouteOverwrites(first: Handler, second: Handler, k1: nat, k2: nat, suffixes: seq<string>)
    requires RouteSlots([first, second]) <= |suffixes|
    requires SingleRoute(first, k1) && SingleRoute(second, k2)
    requires RoutePath(first.decorators[k1]) == RoutePath(second.decorators[k2])
    requires RoutePath(first.decorators[k1]).value != RootPath
    ensures var p := RoutePath(first.decorators[k1]).value;
            TransformSpec([first, second], map[], suffixes).routeMap == map[p := p + "_" + suffixes[1]]
  {
    var p := RoutePath(first.decorators[k1]).value;
    var v1 := VisitSpec(first, map[], suffixes);
    assert v1.used == 1 && v1.routeMap == map[p := p + "_" + suffixes[0]] by {
      SingleRouteRecorded(first, k1, map[], suffixes);
    }
    assert |second.decorators| <= |suffixes[1..]| by {
      TransformTwo(first, second, map[], suffixes);
    }
    var v2 := VisitSpec(second, v1.routeMap, suffixes[1..]);
    assert v2.routeMap == map[p := p + "_" + suffixes[1]] by {
      SingleRouteRecorded(second, k2, v1.routeMap, suffixes[1..]);
      assert suffixes[1..][0] == suffixes[1];
    }
    TransformTwo(first, second, map[], suffixes);
  }

  // ---------------------------------------------------------------------------
  // The transformer, as the source runs it: a route map updated in place

  class ChaosTransformer {
    var routeMap: map<string, string>

    constructor ()
      ensures routeMap == map[]
    {
      routeMap := map[];
    }

    /** visit_FunctionDef: the rewritten node and the number of suffixes it took from the oracle. */
    method VisitFunctionDef(node: Handler, suffixes: seq<string>) returns (node': Handler, used: nat)
      requires |node.decorators| <= |suffixes|
      modifies this
      ensures Visit(node', routeMap, used) == VisitSpec(node, old(routeMap), suffixes)
    {
      if node.decorators == [] {
        return node, 0;
      }
      node', used := node, 0;
      var i := 0;
      while i < |node.decorators|
        invariant 0 <= i <= |node.decorators| && |node'.decorators| == |node.decorators|
        invariant used <= i
        invariant forall j :: i <= j < |node.decorators| ==> node'.decorators[j] == node.decorators[j]
        invariant VisitSpec(node, old(routeMap), suffixes) == VisitFrom(node', i, routeMap, suffixes, used)
      {
        var decorator := node'.decorators[i];
        if decorator.Call? && decorator.funcAttr.Some? {
          if decorator.funcAttr.value in RouteVerbs {
            if |decorator.args| > 0 && decorator.args[0].Const? {
              var originalPath := decorator.args[0].value;
              if originalPath == RootPath {
                routeMap := routeMap[originalPath := originalPath];
                return;
              }
              var mutationHash := suffixes[used];
              used := used + 1;
              var newPath := Suffixed(originalPath, mutationHash);
              var newFuncName := Suffixed(node'.name, mutationHash);
              routeMap := routeMap[originalPath := newPath];
              node' := Handler(newFuncName, node'.decorators[i := WithPath(decorator, newPath)]);
            }
          }
        }
        i := i + 1;
      }
    }

    /** transformer.visit(tree) over the module's top-level handlers, in order. */
    method VisitModule(defs: seq<Handler>, suffixes: seq<string>) returns (defs': seq<Handler>, used: nat)
      requires RouteSlots(defs) <= |suffixes|
      modifies this
      ensures Transformed(defs', routeMap, used) == TransformSpec(defs, old(routeMap), suffixes)
    {
      defs', used := [], 0;
      var k := 0;
      while k < |defs|
        invariant 0 <= k <= |defs|
        invariant RouteSlots(defs[..k]) <= |suffixes|
        invariant Transformed(defs', routeMap, used) == TransformSpec(defs[..k], old(routeMap), suffixes)
      {
        assert defs[..k + 1][..k] == defs[..k];
        RouteSlotsPrefix(defs, k + 1);
        var node', n := VisitFunctionDef(defs[k], suffixes[used..]);
        defs', used := defs' + [node'], used + n;
        k := k + 1;
      }
      assert defs[..k] == defs;
    }
  }

  /** What run_mutation leaves on disk: the mutated artifact (both output paths) and the dumped state. */
  datatype Persisted = Persisted(artifact: seq<Handler>, state: map<string, string>)

  /**
   * run_mutation: a missing template gives the empty map and writes nothing; otherwise the
   * template's handlers are transformed, written out, and the transformer's route map is both
   * dumped and returned.
   */
  method RunMutation(template: Option<seq<Handler>>, suffixes: seq<string>)
    returns (routeMap: map<string, string>, written: Option<Persisted>)
    requires template.Some? ==> RouteSlots(template.value) <= |suffixes|
    ensures template.None? ==> routeMap == map[] && written == None
    ensures template.Some? ==>
      var t := TransformSpec(template.value, map[], suffixes);
      routeMap == t.routeMap && written == Some(Persisted(t.defs, routeMap))
    ensures ChaosSuffixes(suffixes) ==> WellFormedRouteMap(routeMap)
  {
    if template.None? {
      return map[], None;
    }
    var transformer := new ChaosTransformer();
    var defs', _ := transformer.VisitModule(template.value, suffixes);
    routeMap := transformer.routeMap;
    written := Some(Persisted(defs', routeMap));
    if ChaosSuffixes(suffixes) {
      TransformWellFormed(template.value, map[], suffixes);
    }
  }
}
