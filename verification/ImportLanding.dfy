/**
 Landing a bundled import in an import table (ensureBundledImportBinding in
 cmd/gc/builtin_include_doctor_check.go).

 The source ranges over a Go map, so the order in which bindings are seen is
 the runtime's choice: the scan is modelled as a fold over an arbitrary
 enumeration of the table.  It remembers the least candidate binding with ""
 standing for "none", which makes a binding whose own name is "" special; the
 results below say exactly what that costs.
 */
module ImportLanding {
  import opened Common
  import Decimal

  datatype Import = Import(source: string, version: string, exported: bool, transitive: Option<bool>, shadow: string) {
    /** Not exported, transitive, and shadowing neither silenced nor otherwise changed. */
    predicate HasDefaultOptions() {
      !exported && transitive != Some(false) && (shadow == "" || shadow == "warn")
    }
  }

  type Imports = map<string, Import>

  // ------------------------------------------------------- ordering of names

  /** Go's order on strings. */
  predicate Less(a: string, b: string) {
    b != [] && (a == [] || a[0] < b[0] || (a[0] == b[0] && Less(a[1..], b[1..])))
  }

  lemma {:induction false} LessTotal(a: string, b: string)
    ensures a == b || Less(a, b) || Less(b, a)
    ensures !(Less(a, b) && Less(b, a)) && !Less(a, a)
  {
    if a != [] && b != [] {
      LessTotal(a[1..], b[1..]);
      LessTotal(a[1..], a[1..]);
      assert a[0] == b[0] && a[1..] == b[1..] ==> a == [a[0]] + a[1..] == b;
    } else if a != [] {
      LessTotal(a[1..], a[1..]);
    }
  }

  lemma {:induction false} LessTransitive(a: string, b: string, c: string)
    requires Less(a, b) && Less(b, c)
    ensures Less(a, c)
  {
    if a != [] && a[0] == b[0] == c[0] {
      LessTransitive(a[1..], b[1..], c[1..]);
    }
  }

  ghost predicate IsLeast(x: string, s: set<string>) {
    x in s && forall y :: y in s ==> y == x || Less(x, y)
  }

  // ------------------------------------------------------- fresh bindings

  /** The N-th fallback name. */
  function Suffixed(base: string, i: nat): string {
    base + "-" + Decimal.Itoa(i)
  }

  lemma SuffixedInjective(base: string, i: nat, j: nat)
    requires Suffixed(base, i) == Suffixed(base, j)
    ensures i == j
  {
    assert Suffixed(base, i)[|base| + 1..] == Decimal.Itoa(i);
    assert Suffixed(base, j)[|base| + 1..] == Decimal.Itoa(j);
    Decimal.ItoaInjective(i, j);
  }

  /** `c` is the first fallback name, counting from `i`, outside `keys`. */
  ghost predicate IsFirstFree(keys: set<string>, base: string, i: nat, c: string) {
    c !in keys && exists j: nat :: i <= j && c == Suffixed(base, j) && forall k: nat :: i <= k < j ==> Suffixed(base, k) in keys
  }

  /** The search for a free suffix; a name passed over is not met again, so it can be dropped. */
  function FirstFree(keys: set<string>, base: string, i: nat): (c: string)
    ensures IsFirstFree(keys, base, i, c)
    decreases |keys|
  {
    var here := Suffixed(base, i);
    if here !in keys then
      assert forall k: nat :: i <= k < i ==> Suffixed(base, k) in keys;
      here
    else
      var c := FirstFree(keys - {here}, base, i + 1);
      FirstFreeStep(keys, base, i, c);
      c
  }

  lemma FirstFreeStep(keys: set<string>, base: string, i: nat, c: string)
    requires Suffixed(base, i) in keys && IsFirstFree(keys - {Suffixed(base, i)}, base, i + 1, c)
    ensures IsFirstFree(keys, base, i, c)
  {
    var j: nat :| i + 1 <= j && c == Suffixed(base, j) &&
                  forall k: nat :: i + 1 <= k < j ==> Suffixed(base, k) in keys - {Suffixed(base, i)};
    if c == Suffixed(base, i) { SuffixedInjective(base, i, j); }
  }

  /** A name the allocation for `base` can come up with. */
  ghost predicate Spells(base: string, binding: string) {
    var root := if base == "" then "import" else base;
    binding == root || exists j: nat :: j >= 2 && binding == Suffixed(root, j)
  }

  /** UniqueLegacyImportBinding: the natural name, or the first free "name-N" with N at least 2. */
  function UniqueBinding(keys: set<string>, base: string): (binding: string)
    ensures binding !in keys && binding != "" && Spells(base, binding)
    ensures base != "" && base !in keys ==> binding == base
    ensures base != "" && base in keys ==> IsFirstFree(keys, base, 2, binding)
    ensures base == "" ==> if "import" !in keys then binding == "import" else IsFirstFree(keys, "import", 2, binding)
  {
    var root := if base == "" then "import" else base;
    if root !in keys then root else FirstFree(keys, root, 2)
  }

  // ---------------------------------------------------------------- the scan

  ghost predicate Enumerates(order: seq<string>, imports: Imports) {
    Distinct(order) && Elements(order) == imports.Keys
  }

  /** Bindings of the same source, by what they mean for the landing. */
  predicate SameSource(i: Import, imp: Import) { i.source == imp.source }
  predicate IsPinned(i: Import, imp: Import) { SameSource(i, imp) && i.HasDefaultOptions() && i.version != "" }
  predicate IsUnpinned(i: Import, imp: Import) { SameSource(i, imp) && i.HasDefaultOptions() && i.version == "" }
  predicate IsConflict(i: Import, imp: Import) {
    SameSource(i, imp) && !i.HasDefaultOptions() && i.version != "" && i.version != imp.version
  }

  function Pinned(imports: Imports, imp: Import): set<string> { set b | b in imports && IsPinned(imports[b], imp) }
  function Unpinned(imports: Imports, imp: Import): set<string> { set b | b in imports && IsUnpinned(imports[b], imp) }
  function Conflicts(imports: Imports, imp: Import): set<string> { set b | b in imports && IsConflict(imports[b], imp) }

  /** The import is plain: not exported, transitive, shadowing as by default. */
  ghost predicate Plain(i: Import) {
    !i.exported && i.transitive != Some(false) && i.shadow in {"", "warn"}
  }

  /** What the bindings of a source mean for the landing: a plain one with a
      version settles it, a plain one without can be pinned, any other at a
      different version is in the way, and the rest do not matter. */
  lemma BindingKinds(imports: Imports, imp: Import, b: string)
    ensures b in Pinned(imports, imp) <==> b in imports && imports[b].source == imp.source && Plain(imports[b]) && imports[b].version != ""
    ensures b in Unpinned(imports, imp) <==> b in imports && imports[b].source == imp.source && Plain(imports[b]) && imports[b].version == ""
    ensures b in Conflicts(imports, imp) <==>
            b in imports && imports[b].source == imp.source && !Plain(imports[b]) && imports[b].version !in {"", imp.version}
  {
  }

  /** Either the scan returned early at a pinned default binding, or it ran to the end with these two candidates. */
  datatype Scan = Early | Ran(pin: string, conflict: string)

  function Better(binding: string, best: string): string {
    if best == "" || Less(binding, best) then binding else best
  }

  function ScanBindings(imports: Imports, imp: Import, order: seq<string>): Scan
    requires forall b :: b in order ==> b in imports
  {
    if order == [] then Ran("", "")
    else
      var b := order[|order| - 1];
      match ScanBindings(imports, imp, order[..|order| - 1])
      case Early => Early
      case Ran(pin, conflict) =>
        if IsPinned(imports[b], imp) then Early
        else if IsUnpinned(imports[b], imp) then Ran(Better(b, pin), conflict)
        else if IsConflict(imports[b], imp) then Ran(pin, Better(b, conflict))
        else Ran(pin, conflict)
  }

  /** The whole operation for one iteration order: the new table, or the binding that blocks the landing. */
  function Land(imports: Imports, name: string, imp: Import, order: seq<string>): Result<Imports, string>
    requires Enumerates(order, imports)
  {
    match ScanBindings(imports, imp, order)
    case Early => Ok(imports)
    case Ran(pin, conflict) =>
      if conflict != "" then Err(conflict)
      else if pin != "" && pin in imports then Ok(imports[pin := imports[pin].(version := imp.version)])
      else Ok(imports[UniqueBinding(imports.Keys, name) := imp])
  }

  // ------------------------------------------------ what the scan computes

  /** The least element of `s` along `order`, with "" for "none so far". */
  function Best(order: seq<string>, s: set<string>): string {
    if order == [] then ""
    else
      var rest := Best(order[..|order| - 1], s);
      if order[|order| - 1] in s then Better(order[|order| - 1], rest) else rest
  }

  ghost predicate Meets(order: seq<string>, s: set<string>) {
    exists b :: b in order && b in s
  }

  lemma {:induction false} ScanIsBest(imports: Imports, imp: Import, order: seq<string>)
    requires forall b :: b in order ==> b in imports
    ensures ScanBindings(imports, imp, order) ==
            if Meets(order, Pinned(imports, imp)) then Early
            else Ran(Best(order, Unpinned(imports, imp)), Best(order, Conflicts(imports, imp)))
  {
    if order != [] {
      var rest, b := order[..|order| - 1], order[|order| - 1];
      assert order == rest + [b];
      ScanIsBest(imports, imp, rest);
      assert forall c :: c in order <==> c in rest || c == b;
      assert Meets(order, Pinned(imports, imp)) <==> Meets(rest, Pinned(imports, imp)) || b in Pinned(imports, imp);
    }
  }

  lemma {:induction false} BestIn(order: seq<string>, s: set<string>)
    ensures Best(order, s) == "" || Best(order, s) in s * Elements(order)
    ensures "" !in s && Best(order, s) == "" ==> s !! Elements(order)
    ensures "" !in s ==> forall y :: y in s && y in order ==> y == Best(order, s) || Less(Best(order, s), y)
  {
    if order != [] {
      var rest, b := order[..|order| - 1], order[|order| - 1];
      assert order == rest + [b];
      BestIn(rest, s);
      assert forall c :: c in order <==> c in rest || c == b;
      var prev := Best(rest, s);
      if "" !in s {
        forall y | y in s && y in order ensures y == Best(order, s) || Less(Best(order, s), y) {
          if b in s && prev != "" {
            LessTotal(b, prev);
            if Less(b, prev) && Less(prev, y) { LessTransitive(b, prev, y); }
          }
        }
      }
    }
  }

  /** Without a binding named "" the scan finds the least candidate, in every order. */
  lemma BestIsLeast(order: seq<string>, s: set<string>)
    requires "" !in s && s <= Elements(order)
    ensures if s == {} then Best(order, s) == "" else IsLeast(Best(order, s), s)
  {
    BestIn(order, s);
    if s == {} {
      assert Best(order, s) !in s;
    } else {
      var y :| y in s;
      assert y in order;
    }
  }

  lemma LeastUnique(x: string, y: string, s: set<string>)
    requires IsLeast(x, s) && IsLeast(y, s)
    ensures x == y
  {
    LessTotal(x, y);
  }

  // -------------------------------------------------- independence of order

  /** A candidate set in which a binding named "" competes with others. */
  predicate Ambiguous(s: set<string>) {
    "" in s && s != {""}
  }

  ghost predicate OrderFree(imports: Imports, name: string, imp: Import) {
    forall o, o' :: Enumerates(o, imports) && Enumerates(o', imports) ==> Land(imports, name, imp, o) == Land(imports, name, imp, o')
  }

  lemma BestDetermined(o: seq<string>, o': seq<string>, s: set<string>)
    requires !Ambiguous(s) && s <= Elements(o) && s <= Elements(o')
    ensures Best(o, s) == Best(o', s)
  {
    if "" in s {
      BestIn(o, s);
      BestIn(o', s);
    } else {
      BestIsLeast(o, s);
      BestIsLeast(o', s);
      if s != {} { LeastUnique(Best(o, s), Best(o', s), s); }
    }
  }

  lemma {:induction false} BestLeadingEmpty(rest: seq<string>, s: set<string>)
    ensures Best([""] + rest, s) == Best(rest, s)
  {
    var o := [""] + rest;
    if rest == [] {
      assert o[..|o| - 1] == [];
    } else {
      BestLeadingEmpty(rest[..|rest| - 1], s);
      assert o[..|o| - 1] == [""] + rest[..|rest| - 1];
    }
  }

  lemma {:induction false} BestIgnoresAbsent(rest: seq<string>, s: set<string>, x: string)
    requires x !in rest
    ensures Best(rest, s) == Best(rest, s - {x})
  {
    if rest != [] {
      assert rest[|rest| - 1] != x;
      BestIgnoresAbsent(rest[..|rest| - 1], s, x);
    }
  }

  /** Visiting "" last forgets an ambiguous candidate set; visiting it first finds a candidate. */
  lemma AmbiguousBest(rest: seq<string>, s: set<string>)
    requires Ambiguous(s) && "" !in rest && s - {""} <= Elements(rest)
    ensures Best([""] + rest, s) != "" && Best(rest + [""], s) == ""
  {
    BestLeadingEmpty(rest, s);
    BestIgnoresAbsent(rest, s, "");
    BestIsLeast(rest, s - {""});
    var x :| x in s && x != "";
    assert (rest + [""])[..|rest|] == rest;
  }

  /** The two iteration orders that tell an ambiguous set apart. */
  lemma TwoOrders(imports: Imports) returns (rest: seq<string>)
    requires "" in imports
    ensures "" !in rest && Elements(rest) == imports.Keys - {""}
    ensures Enumerates([""] + rest, imports) && Enumerates(rest + [""], imports)
  {
    rest := Listing(imports.Keys - {""});
    assert forall x :: x in rest <==> x in Elements(rest);
    assert Elements([""] + rest) == Elements(rest + [""]) == imports.Keys;
  }

  lemma ScanAll(imports: Imports, imp: Import, o: seq<string>)
    requires Enumerates(o, imports)
    ensures ScanBindings(imports, imp, o) ==
            if Pinned(imports, imp) != {} then Early
            else Ran(Best(o, Unpinned(imports, imp)), Best(o, Conflicts(imports, imp)))
  {
    ScanIsBest(imports, imp, o);
    assert forall b :: b in o <==> b in Elements(o);
    if Pinned(imports, imp) != {} {
      var b :| b in Pinned(imports, imp);
      assert b in o;
    }
  }

  /** Nothing named "" competes: every order lands the same. */
  lemma OrderIrrelevant(imports: Imports, name: string, imp: Import, o: seq<string>, o': seq<string>)
    requires Enumerates(o, imports) && Enumerates(o', imports)
    requires Pinned(imports, imp) != {} || !Ambiguous(Conflicts(imports, imp))
    requires Pinned(imports, imp) != {} || Conflicts(imports, imp) != {} || !Ambiguous(Unpinned(imports, imp))
    ensures Land(imports, name, imp, o) == Land(imports, name, imp, o')
  {
    var U, C := Unpinned(imports, imp), Conflicts(imports, imp);
    ScanAll(imports, imp, o);
    ScanAll(imports, imp, o');
    if Pinned(imports, imp) == {} {
      BestDetermined(o, o', C);
      if Best(o, C) == "" {
        if "" !in C { BestIsLeast(o, C); }
        BestDetermined(o, o', U);
      }
    }
  }

  /** Something named "" competes: two orders land differently. */
  lemma OrderMatters(imports: Imports, name: string, imp: Import) returns (o: seq<string>, o': seq<string>)
    requires Pinned(imports, imp) == {}
    requires var U, C := Unpinned(imports, imp), Conflicts(imports, imp); Ambiguous(C) || (C == {} && Ambiguous(U))
    ensures Enumerates(o, imports) && Enumerates(o', imports) && Land(imports, name, imp, o) != Land(imports, name, imp, o')
  {
    var U, C := Unpinned(imports, imp), Conflicts(imports, imp);
    var rest := TwoOrders(imports);
    o, o' := [""] + rest, rest + [""];
    ScanAll(imports, imp, o);
    ScanAll(imports, imp, o');
    if Ambiguous(C) {
      AmbiguousBest(rest, C);
    } else {
      AmbiguousBest(rest, U);
      BestIn(o, U);
      BestIn(o, C);
      BestIn(o', C);
      assert Land(imports, name, imp, o).value.Keys == imports.Keys;
    }
  }

  /** The landing does not depend on the runtime's iteration order exactly when
      a pinned default binding settles it early, or no binding named "" competes
      with another: neither among the conflicting bindings nor, when nothing
      conflicts, among the unpinned ones. */
  lemma OrderIndependence(imports: Imports, name: string, imp: Import)
    ensures OrderFree(imports, name, imp) <==>
            || Pinned(imports, imp) != {}
            || !(Ambiguous(Conflicts(imports, imp)) || (Conflicts(imports, imp) == {} && Ambiguous(Unpinned(imports, imp))))
  {
    var U, C := Unpinned(imports, imp), Conflicts(imports, imp);
    if Pinned(imports, imp) == {} && (Ambiguous(C) || (C == {} && Ambiguous(U))) {
      var o, o' := OrderMatters(imports, name, imp);
    } else {
      forall o, o' | Enumerates(o, imports) && Enumerates(o', imports)
        ensures Land(imports, name, imp, o) == Land(imports, name, imp, o')
      {
        OrderIrrelevant(imports, name, imp, o, o');
      }
    }
  }

  // --------------------------------------------------------- what is landed

  /** `after` differs from `before` in at most one binding: an unpinned binding
      of the source gained the bundled pin, or the import landed under a new name. */
  ghost predicate OneBindingChanged(before: Imports, after: Imports, imp: Import) {
    || after == before
    || exists b :: b in after && after == before[b := after[b]] &&
         if b in before then IsUnpinned(before[b], imp) && after[b] == before[b].(version := imp.version)
         else after[b] == imp
  }

  /** What is landed is a pinned import with default options. */
  predicate Bundled(imp: Import) {
    imp.HasDefaultOptions() && imp.version != ""
  }

  /** What a success does, case by case. */
  lemma LandCases(imports: Imports, name: string, imp: Import, o: seq<string>)
    requires Enumerates(o, imports) && Land(imports, name, imp, o).Ok?
    ensures var after, pin := Land(imports, name, imp, o).value, Best(o, Unpinned(imports, imp));
            if Pinned(imports, imp) != {} then after == imports
            else if pin != "" then pin in Unpinned(imports, imp) && after == imports[pin := imports[pin].(version := imp.version)]
            else after == imports[UniqueBinding(imports.Keys, name) := imp]
  {
    ScanAll(imports, imp, o);
    BestIn(o, Unpinned(imports, imp));
  }

  /** Every success, in every order: nothing is overwritten, at most one binding
      changes, and the source ends up imported, pinned, with default options. */
  lemma LandSucceeds(imports: Imports, name: string, imp: Import, o: seq<string>)
    requires Bundled(imp) && Enumerates(o, imports) && Land(imports, name, imp, o).Ok?
    ensures var after := Land(imports, name, imp, o).value;
            OneBindingChanged(imports, after, imp) && Pinned(after, imp) != {}
  {
    ScanAll(imports, imp, o);
    var after := Land(imports, name, imp, o).value;
    if Pinned(imports, imp) == {} {
      var pin := Best(o, Unpinned(imports, imp));
      BestIn(o, Unpinned(imports, imp));
      var b := if pin != "" then pin else UniqueBinding(imports.Keys, name);
      assert after == imports[b := after[b]];
      assert b in Pinned(after, imp);
    }
  }

  /** Landing again, in any order, changes nothing. */
  lemma LandIdempotent(imports: Imports, name: string, imp: Import, o: seq<string>, o': seq<string>)
    requires Bundled(imp) && Enumerates(o, imports) && Land(imports, name, imp, o).Ok?
    requires Enumerates(o', Land(imports, name, imp, o).value)
    ensures Land(Land(imports, name, imp, o).value, name, imp, o') == Land(imports, name, imp, o)
  {
    LandSucceeds(imports, name, imp, o);
    ScanAll(Land(imports, name, imp, o).value, imp, o');
  }

  /** Refusal: always on the strength of a conflicting binding and of no pinned
      default one; and, unless a binding named "" conflicts, in exactly that
      case, naming the least conflicting binding. */
  lemma LandRefuses(imports: Imports, name: string, imp: Import, o: seq<string>)
    requires Enumerates(o, imports)
    ensures Land(imports, name, imp, o).Err? ==> Pinned(imports, imp) == {} && Land(imports, name, imp, o).error in Conflicts(imports, imp)
    ensures "" !in Conflicts(imports, imp) && Pinned(imports, imp) == {} && Conflicts(imports, imp) != {} ==>
              Land(imports, name, imp, o).Err? && IsLeast(Land(imports, name, imp, o).error, Conflicts(imports, imp))
  {
    ScanAll(imports, imp, o);
    BestIn(o, Conflicts(imports, imp));
    if "" !in Conflicts(imports, imp) { BestIsLeast(o, Conflicts(imports, imp)); }
  }

  // ----------------------------------------------------------- one pin per source

  predicate PinsSource(imports: Imports, b: string, source: string) {
    b in imports && imports[b].source == source && imports[b].version != ""
  }

  ghost predicate SinglePin(imports: Imports, source: string) {
    forall a, b :: PinsSource(imports, a, source) && PinsSource(imports, b, source) ==> imports[a].version == imports[b].version
  }

  /** No order puts a singly pinned source at two pins. */
  ghost predicate KeepsSinglePin(imports: Imports, name: string, imp: Import) {
    forall o :: Enumerates(o, imports) && Land(imports, name, imp, o).Ok? ==> SinglePin(Land(imports, name, imp, o).value, imp.source)
  }

  lemma LandedPins(imports: Imports, name: string, imp: Import, o: seq<string>)
    requires Bundled(imp) && Enumerates(o, imports) && Land(imports, name, imp, o).Ok? && Pinned(imports, imp) == {}
    ensures SinglePin(Land(imports, name, imp, o).value, imp.source) <==> Conflicts(imports, imp) == {}
  {
    var after := Land(imports, name, imp, o).value;
    LandSucceeds(imports, name, imp, o);
    var p :| p in Pinned(after, imp);
    if Conflicts(imports, imp) != {} {
      var c :| c in Conflicts(imports, imp);
      assert p !in Pinned(imports, imp) && after[p].version == imp.version;
      assert PinsSource(after, c, imp.source) && PinsSource(after, p, imp.source);
    } else {
      forall a | PinsSource(after, a, imp.source) ensures after[a].version == imp.version {
        assert a !in Conflicts(imports, imp) && a !in Pinned(imports, imp);
      }
    }
  }

  /** A singly pinned source stays singly pinned exactly when a pinned default
      binding settles the landing early or no binding named "" conflicts. */
  lemma SinglePinKept(imports: Imports, name: string, imp: Import)
    requires Bundled(imp) && SinglePin(imports, imp.source)
    ensures KeepsSinglePin(imports, name, imp) <==> Pinned(imports, imp) != {} || "" !in Conflicts(imports, imp)
  {
    var C := Conflicts(imports, imp);
    if Pinned(imports, imp) == {} && "" in C {
      var rest := TwoOrders(imports);
      var o := rest + [""];
      ScanAll(imports, imp, o);
      if Ambiguous(C) { AmbiguousBest(rest, C); } else { BestIn(o, C); }
      LandedPins(imports, name, imp, o);
    } else {
      forall o | Enumerates(o, imports) && Land(imports, name, imp, o).Ok?
        ensures SinglePin(Land(imports, name, imp, o).value, imp.source)
      {
        ScanAll(imports, imp, o);
        LandRefuses(imports, name, imp, o);
        if Pinned(imports, imp) == {} { LandedPins(imports, name, imp, o); }
      }
    }
  }

  /** A table on which the outcome is up to the runtime: two exported bindings
      of the source, one of them named "", both pinned away from the bundled pin. */
  lemma EmptyBindingExample(imp: Import) returns (imports: Imports)
    requires Bundled(imp)
    ensures imports.Keys == {"", "core"} && !OrderFree(imports, "core", imp) && !KeepsSinglePin(imports, "core", imp)
  {
    var own := imp.(exported := true, version := imp.version + "-pinned");
    imports := map["" := own, "core" := own];
    assert own.version != imp.version;
    assert Conflicts(imports, imp) == {"", "core"} && Pinned(imports, imp) == {};
    OrderIndependence(imports, "core", imp);
    SinglePinKept(imports, "core", imp);
  }

  // ------------------------------------------------------------ the operation

  /** The loop over the table, in the order the runtime hands out. */
  method EnsureBundledBinding(imports: Imports, name: string, imp: Import, order: seq<string>)
    returns (result: Result<Imports, string>)
    requires Enumerates(order, imports)
    ensures result == Land(imports, name, imp, order)
  {
    var pin, conflict := "", "";
    for i := 0 to |order|
      invariant forall b :: b in order[..i] ==> b in imports
      invariant ScanBindings(imports, imp, order[..i]) == Ran(pin, conflict)
      invariant pin == "" || pin in imports
    {
      var b := order[i];
      assert order[..i + 1][..i] == order[..i] && b in Elements(order);
      var existing := imports[b];
      if existing.source == imp.source {
        if !existing.HasDefaultOptions() {
          if existing.version != "" && existing.version != imp.version {
            if conflict == "" || Less(b, conflict) { conflict := b; }
          }
        } else if existing.version != "" {
          ScanStaysEarly(imports, imp, order, i + 1);
          return Ok(imports);
        } else if pin == "" || Less(b, pin) {
          pin := b;
        }
      }
    }
    assert order[..|order|] == order;
    if conflict != "" { return Err(conflict); }
    if pin != "" { return Ok(imports[pin := imports[pin].(version := imp.version)]); }
    result := Ok(imports[UniqueBinding(imports.Keys, name) := imp]);
  }

  /** Once the scan returned early, later bindings are never looked at. */
  lemma {:induction false} ScanStaysEarly(imports: Imports, imp: Import, order: seq<string>, i: nat)
    requires i <= |order| && (forall b :: b in order ==> b in imports) && ScanBindings(imports, imp, order[..i]) == Early
    ensures ScanBindings(imports, imp, order) == Early
    decreases |order| - i
  {
    if i == |order| {
      assert order[..i] == order;
    } else {
      assert order[..i + 1][..i] == order[..i];
      ScanStaysEarly(imports, imp, order, i + 1);
    }
  }
}
