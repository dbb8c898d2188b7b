/** The helpers of BillOfMaterial/BOMfunc.py: grouping the document's
    reinforcement objects by mark, the diameter list, the sharp-edged length
    of a bar, and the fit-to-page scaling factor. */
module BOMfunc {
  import opened Wrappers
  import opened SeqUtil

  /** The base object a rebar's shape is derived from: a Draft wire (it has a
      `Length`; `FilletRadius` may be missing), a sketch, or anything else. */
  datatype Base =
    | Wire(length: real, filletRadius: Option<real>, closed: bool, edges: seq<real>)
    | Sketch(geometry: seq<real>)
    | OtherBase

  /** The `BaseRebar` of a reinforcement: its optional `MarkNumber`, its
      `Diameter` and authored `Length` in mm, and its `Base`. */
  datatype BaseRebar = BaseRebar(markNumber: Option<int>, diameter: real, length: real, base: Base)

  /** A `Part::FeaturePython` object of the document: the attributes the
      grouping inspects (`BaseRebar` and `IfcType` may be missing) and its
      `Amount`. */
  datatype Item = Item(baseRebar: Option<BaseRebar>, ifcType: Option<string>, amount: int)

  const DefaultMark: int := 0

  /** The objects the bill of materials takes in. */
  predicate Kept(item: Item)
  {
    item.baseRebar.Some? && item.ifcType == Some("Reinforcing Bar")
  }

  function MarkOf(item: Item): int
    requires item.baseRebar.Some?
  {
    match item.baseRebar.value.markNumber
    case Some(m) => m
    case None => DefaultMark
  }

  /** The kept objects of `items` with mark `m`, in input order. */
  function KeptWithMark(items: seq<Item>, m: int): (r: seq<Item>)
    ensures forall x :: x in r <==> x in items && Kept(x) && MarkOf(x) == m
  {
    if items == [] then []
    else
      var last := items[|items| - 1];
      assert items == items[..|items| - 1] + [last];
      var r := KeptWithMark(items[..|items| - 1], m);
      if Kept(last) && MarkOf(last) == m then r + [last] else r
  }

  /** `groups` is what `getMarkReinforcementsDict` builds from `items`: one
      entry per mark of a kept object, holding exactly the kept objects with
      that mark, in input order. */
  ghost predicate GroupedByMark(items: seq<Item>, groups: map<int, seq<Item>>)
  {
    && (forall m :: m in groups <==>
          exists i :: 0 <= i < |items| && Kept(items[i]) && MarkOf(items[i]) == m)
    && (forall m :: m in groups ==> groups[m] == KeptWithMark(items, m))
    && (forall m :: m in groups ==> groups[m] != [])
  }

  /** The first object of a group, whose `BaseRebar` stands for the group. */
  predicate GroupHasRebar(g: seq<Item>)
  {
    g != [] && g[0].baseRebar.Some?
  }

  function FirstRebar(g: seq<Item>): BaseRebar
    requires GroupHasRebar(g)
  {
    g[0].baseRebar.value
  }

  ghost predicate WellFormedGroups(groups: map<int, seq<Item>>)
  {
    forall m :: m in groups ==> GroupHasRebar(groups[m])
  }

  /** `getMarkReinforcementsDict`, over the document's objects given as a sequence. */
  method GroupByMark(objects: seq<Item>) returns (groups: map<int, seq<Item>>)
    ensures GroupedByMark(objects, groups)
    ensures WellFormedGroups(groups)
  {
    groups := map[];
    var n := 0;
    while n < |objects|
      invariant 0 <= n <= |objects|
      invariant GroupedByMark(objects[..n], groups)
    {
      var item := objects[n];
      var next := AddObject(groups, item);
      GroupStep(objects[..n], groups, item, next);
      assert objects[..n + 1] == objects[..n] + [item];
      groups := next;
      n := n + 1;
    }
    assert objects[..n] == objects;
    GroupsHaveRebars(objects, groups);
  }

  /** Every group of the grouping starts with an object that has a base rebar. */
  lemma GroupsHaveRebars(objects: seq<Item>, groups: map<int, seq<Item>>)
    requires GroupedByMark(objects, groups)
    ensures WellFormedGroups(groups)
  {
    forall m | m in groups ensures GroupHasRebar(groups[m]) {
      assert groups[m][0] in KeptWithMark(objects, m);
    }
  }

  /** One iteration of the grouping loop: a reinforcing bar with a base
      rebar is appended to the list of its mark (0 when it has none), which
      is created when missing; any other object is skipped. */
  method AddObject(groups: map<int, seq<Item>>, item: Item) returns (next: map<int, seq<Item>>)
    ensures !Kept(item) ==> next == groups
    ensures Kept(item) ==> next == groups[MarkOf(item) := (if MarkOf(item) in groups then groups[MarkOf(item)] else []) + [item]]
  {
    next := groups;
    if item.baseRebar.Some? && item.ifcType.Some? {
      if item.ifcType.value == "Reinforcing Bar" {
        var mark := if item.baseRebar.value.markNumber.None? then DefaultMark
                    else item.baseRebar.value.markNumber.value;
        var list := if mark in groups then groups[mark] else [];
        next := groups[mark := list + [item]];
      }
    }
  }

  /** One iteration of the grouping loop keeps `GroupedByMark`. */
  lemma GroupStep(prefix: seq<Item>, groups: map<int, seq<Item>>, item: Item, next: map<int, seq<Item>>)
    requires GroupedByMark(prefix, groups)
    requires next == if !Kept(item) then groups
                     else groups[MarkOf(item) := (if MarkOf(item) in groups then groups[MarkOf(item)] else []) + [item]]
    ensures GroupedByMark(prefix + [item], next)
  {
    var s := prefix + [item];
    assert s[..|s| - 1] == prefix;
    forall m ensures KeptWithMark(s, m) == if Kept(item) && MarkOf(item) == m then KeptWithMark(prefix, m) + [item] else KeptWithMark(prefix, m) {
    }
    forall m ensures m in next <==> exists i :: 0 <= i < |s| && Kept(s[i]) && MarkOf(s[i]) == m {
      if m in next && !(m in groups) {
        assert s[|s| - 1] == item;
      }
      if exists i :: 0 <= i < |s| && Kept(s[i]) && MarkOf(s[i]) == m {
        var i :| 0 <= i < |s| && Kept(s[i]) && MarkOf(s[i]) == m;
        if i < |prefix| {
          assert prefix[i] == s[i];
        }
      }
      if m in groups {
        var i :| 0 <= i < |prefix| && Kept(prefix[i]) && MarkOf(prefix[i]) == m;
        assert s[i] == prefix[i];
      }
    }
    forall m | m in next ensures next[m] == KeptWithMark(s, m) && next[m] != [] {
      if Kept(item) && MarkOf(item) == m && m !in groups {
        NoMarkNoGroup(prefix, m);
      }
    }
  }

  /** Without a kept object of mark `m` the filtered list is empty. */
  lemma {:induction false} NoMarkNoGroup(items: seq<Item>, m: int)
    requires !exists i :: 0 <= i < |items| && Kept(items[i]) && MarkOf(items[i]) == m
    ensures KeptWithMark(items, m) == []
  {
    if items != [] {
      var prefix := items[..|items| - 1];
      forall i | 0 <= i < |prefix| ensures prefix[i] == items[i] {}
      NoMarkNoGroup(prefix, m);
    }
  }

  /** Every kept object sits in exactly the group of its own mark. */
  lemma GroupsPartitionKept(objects: seq<Item>, groups: map<int, seq<Item>>, i: int, m: int)
    requires GroupedByMark(objects, groups)
    requires 0 <= i < |objects| && Kept(objects[i]) && m in groups
    ensures MarkOf(objects[i]) in groups
    ensures objects[i] in groups[m] <==> m == MarkOf(objects[i])
  {
    assert MarkOf(objects[i]) in groups;
    assert groups[MarkOf(objects[i])] == KeptWithMark(objects, MarkOf(objects[i]));
  }

  /** `diameter` is the diameter of the first object of a group whose mark is in `marks`. */
  ghost predicate FirstDiameterAmong(groups: map<int, seq<Item>>, marks: set<int>, diameter: real)
    requires WellFormedGroups(groups)
  {
    exists m :: m in marks && m in groups && FirstRebar(groups[m]).diameter == diameter
  }

  /** `diameter` is the diameter of the first object of some group. */
  ghost predicate IsGroupDiameter(groups: map<int, seq<Item>>, diameter: real)
    requires WellFormedGroups(groups)
  {
    FirstDiameterAmong(groups, groups.Keys, diameter)
  }

  /** `getUniqueDiameterList`: the diameters of the groups' first objects,
      ascending and without repetition. */
  method UniqueDiameters(groups: map<int, seq<Item>>) returns (diameters: seq<real>)
    requires WellFormedGroups(groups)
    ensures StrictlyAscending(diameters)
    ensures Distinct(diameters)
    ensures forall d :: d in diameters <==> IsGroupDiameter(groups, d)
  {
    var list: seq<real> := [];
    var rest := groups.Keys;
    ghost var done: set<int> := {};
    while rest != {}
      invariant rest <= groups.Keys && done == groups.Keys - rest
      invariant Distinct(list)
      invariant forall d :: d in list <==> FirstDiameterAmong(groups, done, d)
      decreases rest
    {
      var m := Choose(rest);
      var diameter := groups[m][0].baseRebar.value.diameter;
      if diameter !in list {
        list := list + [diameter];
      }
      AddMarkDiameter(groups, done, m);
      rest := rest - {m};
      done := done + {m};
    }
    diameters := SortBy(list, Identity);
    SortedDistinctAscending(diameters);
    forall d ensures d in diameters <==> d in list {
      PermutationMembers(list, diameters, d);
    }
  }

  lemma AddMarkDiameter(groups: map<int, seq<Item>>, marks: set<int>, m: int)
    requires WellFormedGroups(groups) && m in groups
    ensures forall d :: FirstDiameterAmong(groups, marks + {m}, d)
                        <==> FirstDiameterAmong(groups, marks, d) || d == FirstRebar(groups[m]).diameter
  {
    forall d | FirstDiameterAmong(groups, marks + {m}, d)
      ensures FirstDiameterAmong(groups, marks, d) || d == FirstRebar(groups[m]).diameter
    {
      var k :| k in marks + {m} && k in groups && FirstRebar(groups[k]).diameter == d;
    }
  }

  /** The lengths of the edges at even positions, Python's `edges[::2]`. */
  function EveryOther(s: seq<real>): (r: seq<real>)
    ensures |r| == (|s| + 1) / 2
    ensures forall i :: 0 <= i < |r| ==> r[i] == s[2 * i]
  {
    seq((|s| + 1) / 2, i requires 0 <= i < (|s| + 1) / 2 => s[2 * i])
  }

  /** The corner count of a filleted wire of `edgeCount` edges; Python's
      true division, so an odd count gives a half. */
  function Corners(edgeCount: nat, closed: bool): real
  {
    if closed then edgeCount as real / 2.0 else (edgeCount as real - 1.0) / 2.0
  }

  /** The sharp-edged length of a bar (in mm) by the rules of
      `getRebarSharpEdgedLength`: the wire's own length when it has no
      fillet; for a filleted wire its straight edges (at even positions)
      and, per corner, twice the fillet radius, which is E·r for a closed
      wire of E edges and (E-1)·r for an open one; the total length of a
      sketch's geometry; 0 for any other base. */
  function SharpEdgedLength(base: Base): (r: real)
    ensures base.Wire? && (base.filletRadius.None? || base.filletRadius.value == 0.0) ==> r == base.length
    ensures base.Wire? && base.filletRadius.Some? && base.filletRadius.value != 0.0
            ==> var radius, e := base.filletRadius.value, |base.edges| as real;
                r == Sum(EveryOther(base.edges)) + (if base.closed then e * radius else (e - 1.0) * radius)
    ensures base.Sketch? ==> r == Sum(base.geometry)
    ensures base.OtherBase? ==> r == 0.0
  {
    match base
    case Wire(length, radius, closed, edges) =>
      if radius.None? || radius.value == 0.0 then length
      else Sum(EveryOther(edges)) + 2.0 * Corners(|edges|, closed) * radius.value
    case Sketch(geometry) => Sum(geometry)
    case OtherBase => 0.0
  }

  /** A loop that adds up `values` in turn. */
  method SumLoop(values: seq<real>) returns (total: real)
    ensures total == Sum(values)
  {
    total := 0.0;
    var i := 0;
    while i < |values|
      invariant 0 <= i <= |values|
      invariant total == Sum(values[..i])
    {
      assert values[..i + 1][..i] == values[..i];
      total := total + values[i];
      i := i + 1;
    }
    assert values[..i] == values;
  }

  /** `getRebarSharpEdgedLength`: the loops over `edges[::2]` and over the
      sketch geometry. */
  method RebarSharpEdgedLength(rebar: BaseRebar) returns (length: real)
    ensures length == SharpEdgedLength(rebar.base)
    ensures rebar.base.Wire? && (rebar.base.filletRadius.None? || rebar.base.filletRadius.value == 0.0)
            ==> length == rebar.base.length
    ensures rebar.base.OtherBase? ==> length == 0.0
  {
    match rebar.base
    case Wire(wireLength, radius, closed, edges) =>
      if radius.None? || radius.value == 0.0 {
        return wireLength;
      }
      var corners := if closed then |edges| as real / 2.0 else (|edges| as real - 1.0) / 2.0;
      assert corners == Corners(|edges|, closed);
      var extension := 2.0 * corners * radius.value;
      var straight := SumLoop(EveryOther(edges));
      return straight + extension;
    case Sketch(geometry) =>
      length := SumLoop(geometry);
    case OtherBase =>
      return 0.0;
  }

  // ---------------------------------------------------------------------
  // Fit to page
  // ---------------------------------------------------------------------

  datatype ScaleError = DivisionByZero

  /** A size cap in the sense of Python's truth test: set and nonzero. */
  predicate CapSet(cap: Option<real>)
  {
    cap.Some? && cap.value != 0.0
  }

  function Min(a: real, b: real): real { if a <= b then a else b }

  /** The scaling trigger of `getBOMScalingFactor`: the table plus the
      offsets overflows the page on some axis (strictly), or a set cap is
      below the table's natural size; that is, exactly when the table at
      its natural size (factor 1) does not fit. */
  function NeedsScaling(width: real, height: real, leftOffset: real, topOffset: real,
                        pageWidth: real, pageHeight: real, minRight: real, minBottom: real,
                        maxWidth: Option<real>, maxHeight: Option<real>): (r: bool)
    ensures r <==> !Fits(1.0, width, height, leftOffset, topOffset, pageWidth, pageHeight,
                         minRight, minBottom, maxWidth, maxHeight)
  {
    || pageWidth - width - leftOffset - minRight < 0.0
    || pageHeight - height - topOffset - minBottom < 0.0
    || (CapSet(maxWidth) && maxWidth.value < width)
    || (CapSet(maxHeight) && maxHeight.value < height)
  }

  /** `s` keeps the scaled table inside the page margins and the caps. */
  ghost predicate Fits(s: real, width: real, height: real, leftOffset: real, topOffset: real,
                       pageWidth: real, pageHeight: real, minRight: real, minBottom: real,
                       maxWidth: Option<real>, maxHeight: Option<real>)
  {
    && s * width + leftOffset + minRight <= pageWidth
    && s * height + topOffset + minBottom <= pageHeight
    && (CapSet(maxWidth) ==> s * width <= maxWidth.value)
    && (CapSet(maxHeight) ==> s * height <= maxHeight.value)
  }

  /** `getBOMScalingFactor`. Python raises ZeroDivisionError when it must
      scale a table of zero width or height. */
  function ScalingFactor(width: real, height: real, leftOffset: real, topOffset: real,
                         pageWidth: real, pageHeight: real, minRight: real, minBottom: real,
                         maxWidth: Option<real>, maxHeight: Option<real>): (r: Result<real, ScaleError>)
    ensures (!NeedsScaling(width, height, leftOffset, topOffset, pageWidth, pageHeight,
                           minRight, minBottom, maxWidth, maxHeight))
            ==> r == Ok(1.0)
    ensures (NeedsScaling(width, height, leftOffset, topOffset, pageWidth, pageHeight,
                          minRight, minBottom, maxWidth, maxHeight) && (width == 0.0 || height == 0.0))
            ==> r == Err(DivisionByZero)
  {
    if !NeedsScaling(width, height, leftOffset, topOffset, pageWidth, pageHeight,
                     minRight, minBottom, maxWidth, maxHeight) then Ok(1.0)
    else if width == 0.0 || height == 0.0 then Err(DivisionByZero)
    else
      var h := (pageWidth - leftOffset - minRight) / width;
      var h' := if CapSet(maxWidth) then Min(h, maxWidth.value / width) else h;
      var v := (pageHeight - topOffset - minBottom) / height;
      var v' := if CapSet(maxHeight) then Min(v, maxHeight.value / height) else v;
      Ok(Min(h', v'))
  }

  lemma DivBound(a: real, b: real, s: real)
    requires b > 0.0
    ensures s * b <= a <==> s <= a / b
  {
    assert (a / b) * b == a;
    if s <= a / b {
      assert s * b <= (a / b) * b;
    } else {
      assert s * b > (a / b) * b;
    }
  }

  /** The two room-over-size bounds once the caps are applied. */
  function CappedBound(room: real, size: real, cap: Option<real>): real
    requires size != 0.0
  {
    if CapSet(cap) then Min(room / size, cap.value / size) else room / size
  }

  lemma ScalingFactorValue(
    width: real, height: real, leftOffset: real, topOffset: real,
    pageWidth: real, pageHeight: real, minRight: real, minBottom: real,
    maxWidth: Option<real>, maxHeight: Option<real>)
    requires NeedsScaling(width, height, leftOffset, topOffset, pageWidth, pageHeight,
                          minRight, minBottom, maxWidth, maxHeight)
    requires width != 0.0 && height != 0.0
    ensures ScalingFactor(width, height, leftOffset, topOffset, pageWidth, pageHeight,
                          minRight, minBottom, maxWidth, maxHeight)
            == Ok(Min(CappedBound(pageWidth - leftOffset - minRight, width, maxWidth),
                      CappedBound(pageHeight - topOffset - minBottom, height, maxHeight)))
  {
  }

  /** A factor is at most a capped bound iff it keeps the size within the
      room and within the cap. */
  lemma CappedBoundIff(room: real, size: real, cap: Option<real>, s: real)
    requires size > 0.0
    ensures s <= CappedBound(room, size, cap) <==> s * size <= room && (CapSet(cap) ==> s * size <= cap.value)
  {
    DivBound(room, size, s);
    if CapSet(cap) { DivBound(cap.value, size, s); }
  }

  /** Fitting is fitting both capped bounds. */
  lemma FitsIff(
    s: real, width: real, height: real, leftOffset: real, topOffset: real,
    pageWidth: real, pageHeight: real, minRight: real, minBottom: real,
    maxWidth: Option<real>, maxHeight: Option<real>)
    requires width > 0.0 && height > 0.0
    ensures Fits(s, width, height, leftOffset, topOffset, pageWidth, pageHeight,
                 minRight, minBottom, maxWidth, maxHeight)
            <==> s <= CappedBound(pageWidth - leftOffset - minRight, width, maxWidth)
                 && s <= CappedBound(pageHeight - topOffset - minBottom, height, maxHeight)
  {
    CappedBoundIff(pageWidth - leftOffset - minRight, width, maxWidth, s);
    CappedBoundIff(pageHeight - topOffset - minBottom, height, maxHeight, s);
  }

  /** When the table must shrink, the factor is below 1, keeps the table
      inside the margins and under the caps, and is the largest factor that
      does: the tighter axis binds. */
  lemma ScalingFactorIsTightestFit(
    width: real, height: real, leftOffset: real, topOffset: real,
    pageWidth: real, pageHeight: real, minRight: real, minBottom: real,
    maxWidth: Option<real>, maxHeight: Option<real>)
    requires NeedsScaling(width, height, leftOffset, topOffset, pageWidth, pageHeight,
                          minRight, minBottom, maxWidth, maxHeight)
    requires width > 0.0 && height > 0.0
    ensures var r := ScalingFactor(width, height, leftOffset, topOffset, pageWidth, pageHeight,
                                   minRight, minBottom, maxWidth, maxHeight);
            && r.Ok?
            && r.value < 1.0
            && Fits(r.value, width, height, leftOffset, topOffset, pageWidth, pageHeight,
                    minRight, minBottom, maxWidth, maxHeight)
            && (forall s :: (Fits(s, width, height, leftOffset, topOffset, pageWidth, pageHeight,
                                  minRight, minBottom, maxWidth, maxHeight))
                            ==> s <= r.value)
  {
    var h := CappedBound(pageWidth - leftOffset - minRight, width, maxWidth);
    var v := CappedBound(pageHeight - topOffset - minBottom, height, maxHeight);
    ScalingFactorValue(width, height, leftOffset, topOffset, pageWidth, pageHeight,
                       minRight, minBottom, maxWidth, maxHeight);
    var r := Min(h, v);
    FitsIff(r, width, height, leftOffset, topOffset, pageWidth, pageHeight,
            minRight, minBottom, maxWidth, maxHeight);
    FitsIff(1.0, width, height, leftOffset, topOffset, pageWidth, pageHeight,
            minRight, minBottom, maxWidth, maxHeight);
    forall s | Fits(s, width, height, leftOffset, topOffset, pageWidth, pageHeight,
                    minRight, minBottom, maxWidth, maxHeight)
      ensures s <= r
    {
      FitsIff(s, width, height, leftOffset, topOffset, pageWidth, pageHeight,
              minRight, minBottom, maxWidth, maxHeight);
    }
  }

  /** Nothing bounds the factor from below: an offset wider than the page
      gives a negative factor. */
  lemma ScalingFactorUnbounded()
    ensures ScalingFactor(100.0, 10.0, 250.0, 0.0, 200.0, 100.0, 0.0, 0.0, None, None) == Ok(-0.5)
  {
  }
}
