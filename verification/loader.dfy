/**
 The bookkeeping of src/js/Tools/Loader.js: the download percentage, the
 nested collections loaded assets are filed under, and the `total`/`done`
 counters that decide when `ressourcesReady` fires. The fetches themselves
 are left out: a loader only records that it was started, and completions
 arrive as inputs with the loaded value of type `A`.
 */
module Loader {
  import opened Wrappers
  import opened LoaderPaths

  // ---------------------------------------------------------------- progress

  /** A progress event: `lengthComputable`, `loaded` and `total` bytes. */
  datatype Xhr = Xhr(lengthComputable: bool, loaded: nat, total: nat)

  /** `currentPercent`: an integer, or the non-finite value `Math.floor`
      returns for a division by zero. */
  datatype Percent = Finite(value: int) | NonFinite

  /** `progress`: the floored percentage, with 100 reset to 0; the
      `ressourceLoad` event fires exactly when the length is computable. */
  function Progress(current: Percent, xhr: Xhr): (r: (Percent, bool))
    ensures r.1 == xhr.lengthComputable
    ensures !xhr.lengthComputable ==> r.0 == current
    ensures xhr.lengthComputable && xhr.total > 0 && xhr.loaded <= xhr.total ==>
      r.0.Finite? && 0 <= r.0.value <= 99
  {
    if !xhr.lengthComputable then (current, false)
    else if xhr.total == 0 then (NonFinite, true)
    else
      var p := (xhr.loaded as real / xhr.total as real * 100.0).Floor;
      FlooredPercent(xhr.loaded, xhr.total);
      (if p == 100 then Finite(0) else Finite(p), true)
  }

  /** The floored real percentage is the integer quotient `100 * a / b`,
      which is 100 for a finished download and below it before. */
  lemma FlooredPercent(a: nat, b: nat)
    requires b > 0
    ensures (a as real / b as real * 100.0).Floor == (100 * a) / b
    ensures a <= b ==> 0 <= (100 * a) / b <= 100
    ensures a <= b ==> ((100 * a) / b == 100 <==> a == b)
  {
    assert a as real / b as real * 100.0 == (100 * a) as real / b as real;
    FloorOfQuotient(100 * a, b);
    if a <= b {
      QuotientOfHundred(a, b);
    }
  }

  lemma QuotientOfHundred(a: nat, b: nat)
    requires 0 < b && a <= b
    ensures 0 <= (100 * a) / b <= 100
    ensures (100 * a) / b == 100 <==> a == b
  {
    var q := (100 * a) / b;
    if a == b {
      DivUnique(100 * a, b, 100);
    } else {
      assert 100 * a < 100 * b;
      if q >= 100 {
        MulLe(100, q, b);
      }
    }
  }

  lemma MulLe(x: int, y: int, b: nat)
    requires x <= y
    ensures x * b <= y * b
  {
  }

  /** `n / b` is the only `q` with `q * b <= n < q * b + b`. */
  lemma DivUnique(n: int, b: int, q: int)
    requires b > 0 && q * b <= n < q * b + b
    ensures n / b == q
  {
    var d := n / b;
    assert d * b + n % b == n;
    if d > q {
      MulLe(q + 1, d, b);
    } else if d < q {
      MulLe(d + 1, q, b);
    }
  }

  /** The floor of an exact quotient is the integer (Euclidean) quotient. */
  lemma FloorOfQuotient(n: nat, b: nat)
    requires b > 0
    ensures (n as real / b as real).Floor == n / b
  {
    var q := n / b;
    var r := n % b;
    assert n == q * b + r;
    assert n as real == q as real * b as real + r as real;
    var y := n as real / b as real;
    assert y == q as real + r as real / b as real;
    assert 0.0 <= r as real / b as real < 1.0;
  }

  /** With a computable length and `loaded <= total`, the stored percent is
      the integer percentage, except that completion reads as 0. */
  lemma ProgressIsPercentage(current: Percent, xhr: Xhr)
    requires xhr.lengthComputable && 0 < xhr.total && xhr.loaded <= xhr.total
    ensures Progress(current, xhr).0 == Finite(if xhr.loaded == xhr.total then 0 else (100 * xhr.loaded) / xhr.total)
  {
    FlooredPercent(xhr.loaded, xhr.total);
  }

  // ---------------------------------------------------------- nested objects

  /** A JavaScript object as far as `createNestedObject` sees it: a value
      with named properties. A loaded asset is a node whose payload is the
      asset and which starts with no properties. */
  datatype Node<A> = Node(payload: Option<A>, props: map<string, Node<A>>)

  function Empty<A>(): Node<A>
  {
    Node(None, map[])
  }

  function Leaf<A>(v: A): Node<A>
  {
    Node(Some(v), map[])
  }

  /** Following property names from a node. */
  function Lookup<A>(n: Node<A>, path: seq<string>): Option<Node<A>>
    decreases |path|
  {
    if path == [] then Some(n)
    else if path[0] in n.props then Lookup(n.props[path[0]], path[1..])
    else None
  }

  /** `createNestedObject(base, names, value)`: every name but the last is
      followed, creating an empty object where the property is missing;
      then, if the last name is non-empty, it is set to `value`. An empty
      `names` has no last name and changes nothing. */
  function CreateNested<A>(base: Node<A>, names: seq<string>, value: A): (r: Node<A>)
    ensures r.payload == base.payload
    ensures names == [] ==> r == base
    decreases |names|
  {
    if names == [] then base
    else if |names| == 1 then
      if names[0] == "" then base else base.(props := base.props[names[0] := Leaf(value)])
    else
      var child := if names[0] in base.props then base.props[names[0]] else Empty();
      base.(props := base.props[names[0] := CreateNested(child, names[1..], value)])
  }

  /** After the insertion, following `names` yields the value. */
  lemma {:induction false} NestedLookup<A>(base: Node<A>, names: seq<string>, value: A)
    requires names != [] && names[|names| - 1] != ""
    ensures Lookup(CreateNested(base, names, value), names) == Some(Leaf(value))
    decreases |names|
  {
    if |names| > 1 {
      var child := if names[0] in base.props then base.props[names[0]] else Empty();
      assert names[1..][|names[1..]| - 1] == names[|names| - 1];
      NestedLookup(child, names[1..], value);
    }
  }

  /** A path that leaves `names` at position `i` reads the same before and
      after the insertion. */
  lemma {:induction false} NestedOffPath<A>(base: Node<A>, names: seq<string>, value: A, path: seq<string>, i: nat)
    requires i < |path| && i < |names| && path[..i] == names[..i] && path[i] != names[i]
    ensures Lookup(CreateNested(base, names, value), path) == Lookup(base, path)
    decreases i
  {
    if i > 0 && |names| > 1 {
      var child := if names[0] in base.props then base.props[names[0]] else Empty();
      assert path[0] == names[0] by {
        assert path[..i][0] == names[..i][0];
      }
      assert path[1..][..i - 1] == names[1..][..i - 1] by {
        assert path[1..][..i - 1] == path[..i][1..];
        assert names[1..][..i - 1] == names[..i][1..];
      }
      NestedOffPath(child, names[1..], value, path[1..], i - 1);
      if names[0] !in base.props {
        EmptyHasNoPath<A>(path[1..]);
      }
    }
  }

  lemma EmptyHasNoPath<A>(path: seq<string>)
    requires path != []
    ensures Lookup(Empty<A>(), path) == None
  {
  }

  /** `name.split(c)`: the pieces between occurrences of `c`. */
  function Split(s: string, c: char): (r: seq<string>)
    ensures |r| > 0
    ensures forall k :: 0 <= k < |r| ==> c !in r[k]
    decreases |s|
  {
    var head := BeforeFirst(s, c);
    if |head| == |s| then [s]
    else [head] + Split(s[|head| + 1..], c)
  }

  /** `pieces.join(c)`. */
  function Join(pieces: seq<string>, c: char): string
    requires |pieces| > 0
    decreases |pieces|
  {
    if |pieces| == 1 then pieces[0] else pieces[0] + [c] + Join(pieces[1..], c)
  }

  lemma {:induction false} SplitJoin(s: string, c: char)
    ensures Join(Split(s, c), c) == s
    decreases |s|
  {
    var head := BeforeFirst(s, c);
    if |head| < |s| {
      var rest := s[|head| + 1..];
      var pieces := Split(s, c);
      SplitJoin(rest, c);
      assert pieces == [head] + Split(rest, c);
      assert pieces[0] == head && pieces[1..] == Split(rest, c);
      assert Join(pieces, c) == head + [c] + Join(Split(rest, c), c);
      assert s == head + [c] + rest;
    }
  }

  // ---------------------------------------------------------------- counters

  /** The four collections assets are filed under, `${type}s`. */
  datatype Category = Model | TextureAsset | FontAsset | SoundAsset

  datatype Resource = Resource(name: string, src: string, category: Category)

  /** The loader's state: the counters, the loads started (with the loader
      chosen), the four collections, and how often each event fired. */
  datatype State<A> = State(
    total: nat,
    done: nat,
    started: seq<(Resource, LoaderKind)>,
    collections: map<Category, Node<A>>,
    errors: nat,
    loadEvents: nat,
    readyEvents: nat)

  function Init<A>(): (s: State<A>)
    ensures s.total == 0 && s.done == 0 && s.readyEvents == 0 && s.started == []
    ensures s.errors == 0 && s.loadEvents == 0
    ensures s.collections.Keys == {Model, TextureAsset, FontAsset, SoundAsset}
    ensures forall c | c in s.collections :: s.collections[c] == Empty()
  {
    var m: map<Category, Node<A>> := map[Model := Empty(), TextureAsset := Empty(), FontAsset := Empty(), SoundAsset := Empty()];
    State(0, 0, [], m, 0, 0, 0)
  }

  /** A fresh loader has filed nothing in any collection. */
  lemma InitHoldsNothing<A>(c: Category, path: seq<string>)
    requires path != []
    ensures Lookup(Init<A>().collections[c], path) == None
  {
    EmptyHasNoPath<A>(path);
  }

  /** The loader a resource selects by its extension, if any; an empty
      `src` has an empty extension and selects none. */
  function Selected(r: Resource): Option<LoaderKind>
  {
    var ext := Extension(r.src);
    if ext == [] then None else FindLoader(ext)
  }

  /** The resource paired with its loader, or nothing when none accepts it. */
  function Accepted(res: Resource): (d: seq<(Resource, LoaderKind)>)
    ensures |d| <= 1 && (|d| == 1 <==> Selected(res).Some?)
  {
    match Selected(res)
    case None => []
    case Some(kind) => [(res, kind)]
  }

  /** The resources of `rs` that some loader accepts, in order, paired with it. */
  function Dispatchable(rs: seq<Resource>): (d: seq<(Resource, LoaderKind)>)
    ensures |d| <= |rs|
    ensures (forall k :: 0 <= k < |rs| ==> Selected(rs[k]).Some?) <==> |d| == |rs|
  {
    if rs == [] then []
    else
      assert forall k :: 1 <= k < |rs| ==> rs[1..][k - 1] == rs[k];
      Accepted(rs[0]) + Dispatchable(rs[1..])
  }

  /** One step of `loadRessources`: the resource counts towards `total`,
      and is started by its loader or, with none, reported as an error. */
  function Admit<A>(s: State<A>, res: Resource): (r: State<A>)
    ensures r.total == s.total + 1
    ensures r.started == s.started + Accepted(res)
    ensures r.errors == s.errors + 1 - |Accepted(res)|
    ensures r.done == s.done && r.readyEvents == s.readyEvents && r.collections == s.collections
  {
    match Selected(res)
    case None => s.(total := s.total + 1, errors := s.errors + 1)
    case Some(kind) => s.(total := s.total + 1, started := s.started + [(res, kind)])
  }

  /** `loadRessources`: `forEach` over the list. */
  function LoadRessources<A>(s: State<A>, rs: seq<Resource>): State<A>
    decreases |rs|
  {
    if rs == [] then s else LoadRessources(Admit(s, rs[0]), rs[1..])
  }

  /** The whole list is counted, the others are errors, and nothing
      completes. */
  lemma {:induction false} LoadRessourcesCounts<A>(s: State<A>, rs: seq<Resource>)
    ensures LoadRessources(s, rs).total == s.total + |rs|
    ensures LoadRessources(s, rs).errors + |Dispatchable(rs)| == s.errors + |rs|
    ensures LoadRessources(s, rs).done == s.done
    ensures LoadRessources(s, rs).readyEvents == s.readyEvents
    ensures LoadRessources(s, rs).collections == s.collections
    decreases |rs|
  {
    if rs != [] {
      var next := Admit(s, rs[0]);
      LoadRessourcesCounts(next, rs[1..]);
      assert LoadRessources(s, rs) == LoadRessources(next, rs[1..]);
      assert |Dispatchable(rs)| == |Accepted(rs[0])| + |Dispatchable(rs[1..])|;
    }
  }

  /** Exactly the accepted resources are started, in list order. */
  lemma {:induction false} LoadRessourcesStarts<A>(s: State<A>, rs: seq<Resource>)
    ensures LoadRessources(s, rs).started == s.started + Dispatchable(rs)
    decreases |rs|
  {
    if rs != [] {
      var next := Admit(s, rs[0]);
      var acc := Accepted(rs[0]);
      var rest := Dispatchable(rs[1..]);
      LoadRessourcesStarts(next, rs[1..]);
      assert LoadRessources(s, rs) == LoadRessources(next, rs[1..]);
      assert Dispatchable(rs) == acc + rest;
      assert next.started + rest == s.started + (acc + rest);
    }
  }

  /** `setRessourcesList` once the list is known: an empty list signals
      ready at once; otherwise the resources are loaded. */
  function SetRessourcesList<A>(s: State<A>, rs: seq<Resource>): (r: State<A>)
    ensures rs == [] ==> r == s.(readyEvents := s.readyEvents + 1)
    ensures rs != [] ==> r == LoadRessources(s, rs)
  {
    if |rs| > 0 then LoadRessources(s, rs) else s.(readyEvents := s.readyEvents + 1)
  }

  /** `loadComplete`: counts the completion, files the asset under its
      name's `/`-separated path in its collection, and schedules ready
      exactly when `done` reaches `total`. */
  function LoadComplete<A>(s: State<A>, res: Resource, loaded: A): (r: State<A>)
    ensures r.done == s.done + 1 && r.total == s.total && r.started == s.started
    ensures r.loadEvents == s.loadEvents + 1
    ensures r.readyEvents == s.readyEvents + (if s.done + 1 == s.total then 1 else 0)
    ensures forall c :: c in s.collections && c != res.category ==> c in r.collections && r.collections[c] == s.collections[c]
  {
    var base := if res.category in s.collections then s.collections[res.category] else Empty();
    var filed := CreateNested(base, Split(res.name, '/'), loaded);
    s.(done := s.done + 1,
       collections := s.collections[res.category := filed],
       loadEvents := s.loadEvents + 1,
       readyEvents := s.readyEvents + (if s.done + 1 == s.total then 1 else 0))
  }

  /** A completed asset whose name does not end in `/` can be read back
      from its collection along its path. */
  lemma CompletedIsFiled<A>(s: State<A>, res: Resource, loaded: A)
    requires res.name != [] && res.name[|res.name| - 1] != '/'
    ensures var r := LoadComplete(s, res, loaded);
      res.category in r.collections && Lookup(r.collections[res.category], Split(res.name, '/')) == Some(Leaf(loaded))
  {
    var names := Split(res.name, '/');
    SplitJoin(res.name, '/');
    LastPieceNonEmpty(names, '/');
    var base := if res.category in s.collections then s.collections[res.category] else Empty();
    NestedLookup(base, names, loaded);
  }

  lemma {:induction false} LastPieceNonEmpty(pieces: seq<string>, c: char)
    requires |pieces| > 0
    requires Join(pieces, c) != [] && Join(pieces, c)[|Join(pieces, c)| - 1] != c
    ensures pieces[|pieces| - 1] != ""
    decreases |pieces|
  {
    if |pieces| > 1 {
      var rest := Join(pieces[1..], c);
      assert Join(pieces, c) == pieces[0] + [c] + rest;
      LastPieceNonEmpty(pieces[1..], c);
    }
  }

  /** Completions arriving in order. */
  function CompleteAll<A>(s: State<A>, cs: seq<(Resource, A)>): (r: State<A>)
    ensures r.done == s.done + |cs| && r.total == s.total
    decreases |cs|
  {
    if cs == [] then s else CompleteAll(LoadComplete(s, cs[0].0, cs[0].1), cs[1..])
  }

  /** Ready fires once for each completion that brings `done` to `total`. */
  lemma {:induction false} ReadyCount<A>(s: State<A>, cs: seq<(Resource, A)>)
    ensures CompleteAll(s, cs).readyEvents
      == s.readyEvents + (if s.done < s.total <= s.done + |cs| then 1 else 0)
    decreases |cs|
  {
    if cs != [] {
      ReadyCount(LoadComplete(s, cs[0].0, cs[0].1), cs[1..]);
    }
  }

  /** From a fresh loader, a list with a resource no loader accepts never
      becomes ready, however many of the started loads complete; when every
      resource is accepted and each completes once, ready fires exactly once. */
  lemma ReadyIffAllAccepted<A>(rs: seq<Resource>, cs: seq<(Resource, A)>)
    requires rs != []
    requires |cs| <= |LoadRessources(Init<A>(), rs).started|
    ensures var r := CompleteAll(LoadRessources(Init<A>(), rs), cs);
      r.readyEvents == (if |cs| == |rs| then 1 else 0)
    ensures (exists k :: 0 <= k < |rs| && Selected(rs[k]).None?) ==> CompleteAll(LoadRessources(Init<A>(), rs), cs).readyEvents == 0
  {
    var loaded := LoadRessources(Init<A>(), rs);
    LoadRessourcesCounts(Init<A>(), rs);
    LoadRessourcesStarts(Init<A>(), rs);
    ReadyCount(loaded, cs);
  }
}
