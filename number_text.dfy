/** Cell text: the `str(...).rstrip("0").rstrip(".")` clean-up of decimal
    strings, decimal text of integers, and the display rule shared by the
    diameter, length and total-length cells. Python's `round`, `str(float)`
    and FreeCAD's unit conversion are not modelled: they are the function
    fields of a `Numerals` value supplied by the caller. */
module NumberText {
  import opened Wrappers

  /** Python's `s.rstrip(c)` for a one-character argument: drops every
      trailing occurrence of `c`. The three ensures clauses determine the
      result uniquely (see `RStripUnique`). */
  function RStrip(s: string, c: char): (r: string)
    ensures |r| <= |s| && r == s[..|r|]
    ensures r == [] || r[|r| - 1] != c
    ensures forall i :: |r| <= i < |s| ==> s[i] == c
  {
    if s == [] || s[|s| - 1] != c then s else RStrip(s[..|s| - 1], c)
  }

  /** Any prefix of `s` that does not end in `c` and after which `s` holds
      only `c` is `RStrip(s, c)`. */
  lemma RStripUnique(s: string, c: char, r: string)
    requires |r| <= |s| && r == s[..|r|]
    requires r == [] || r[|r| - 1] != c
    requires forall i :: |r| <= i < |s| ==> s[i] == c
    ensures RStrip(s, c) == r
  {
  }

  /** `str(x).rstrip("0").rstrip(".")`, applied to the text of a rounded
      number in BillOfMaterial/BillOfMaterial_SVG.py. */
  function TrimNumber(s: string): (r: string)
    ensures |r| <= |s| && r == s[..|r|]
    ensures r == [] || r[|r| - 1] != '.'
  {
    RStrip(RStrip(s, '0'), '.')
  }

  ghost predicate IsDigits(s: string)
  {
    forall i :: 0 <= i < |s| ==> '0' <= s[i] <= '9'
  }

  /** On a decimal "I.F" the integer part I survives, the fraction loses its
      trailing zeros, and a fraction of zeros only disappears together with
      the point. */
  lemma TrimDecimal(intPart: string, frac: string)
    requires intPart == [] || intPart[|intPart| - 1] != '.'
    requires IsDigits(frac)
    ensures var f := RStrip(frac, '0');
            TrimNumber(intPart + "." + frac)
            == if f == [] then intPart else intPart + "." + f
  {
    var f := RStrip(frac, '0');
    if f == [] {
      TrimAllZeros(intPart, frac);
    } else {
      TrimSomeDigits(intPart, frac);
    }
  }

  lemma TrimAllZeros(intPart: string, frac: string)
    requires intPart == [] || intPart[|intPart| - 1] != '.'
    requires RStrip(frac, '0') == []
    ensures TrimNumber(intPart + "." + frac) == intPart
  {
    var s := intPart + "." + frac;
    var r := intPart + ".";
    assert r == s[..|r|];
    forall i | |r| <= i < |s| ensures s[i] == '0' {
      assert s[i] == frac[i - |r|];
    }
    RStripUnique(s, '0', r);
    assert r[..|r| - 1] == intPart;
    RStripUnique(r, '.', intPart);
  }

  lemma TrimSomeDigits(intPart: string, frac: string)
    requires IsDigits(frac)
    requires RStrip(frac, '0') != []
    ensures TrimNumber(intPart + "." + frac) == intPart + "." + RStrip(frac, '0')
  {
    var head := intPart + ".";
    var s := head + frac;
    var f := RStrip(frac, '0');
    var r := head + f;
    assert f == frac[..|f|];
    assert r == s[..|r|];
    forall i | |r| <= i < |s| ensures s[i] == '0' {
      assert s[i] == frac[i - |head|];
    }
    var last := f[|f| - 1];
    assert r[|r| - 1] == last && last == frac[|f| - 1];
    assert last != '0' && '0' <= last <= '9';
    RStripUnique(s, '0', r);
    RStripUnique(r, '.', r);
  }

  /** A fraction made of zeros only is removed together with the point. */
  lemma TrimWholeNumber(intPart: string, zeros: nat)
    requires intPart == [] || intPart[|intPart| - 1] != '.'
    ensures TrimNumber(intPart + "." + seq(zeros, _ => '0')) == intPart
  {
    var frac := seq(zeros, _ => '0');
    RStripUnique(frac, '0', []);
    TrimDecimal(intPart, frac);
  }

  function DigitChar(d: nat): char
    requires d < 10
  {
    "0123456789"[d]
  }

  /** Python's `str(n)` for an integer. */
  function NatToString(n: nat): string
  {
    if n < 10 then [DigitChar(n)] else NatToString(n / 10) + [DigitChar(n % 10)]
  }

  function IntToString(i: int): string
  {
    if i < 0 then "-" + NatToString(-i) else NatToString(i)
  }

  /** What a FreeCAD `Quantity` measures; its text ends in the unit of
      that dimension. */
  datatype QuantityKind = LengthQuantity | WeightQuantity

  /** The number services of the host application: `str(round(x, p))` of a
      plain float as `roundStr`, `str(round(q, p))` of a FreeCAD `Quantity`
      (its number followed by its own unit) as `quantityStr`,
      `Quantity.getValueAs(unit).Value` as `valueAs`, and the user's
      preferred number of decimals as `precision`. */
  datatype Numerals = Numerals(
    precision: int,
    roundStr: (real, int) -> string,
    quantityStr: (real, QuantityKind, int) -> string,
    valueAs: (real, string) -> real)

  /** A value shown in `unit`: converted, rounded, trimmed, then " " + unit. */
  function InUnit(env: Numerals, value: real, unit: string): string
  {
    TrimNumber(env.roundStr(env.valueAs(value, unit), env.precision)) + " " + unit
  }

  /** The display rule of the diameter, length and total-length cells: with a
      configured unit the trimmed converted value and that unit, otherwise
      the text of the rounded length `Quantity` itself. */
  function Display(env: Numerals, value: real, unit: Option<string>): string
  {
    match unit
    case Some(u) => InUnit(env, value, u)
    case None => env.quantityStr(value, LengthQuantity, env.precision)
  }

  /** A value shown in a unit ends in a space and that unit, and the number
      before it is a prefix of the rounded converted value that never ends
      in a decimal point. */
  lemma InUnitShape(env: Numerals, value: real, unit: string)
    ensures var r := InUnit(env, value, unit);
            var text := env.roundStr(env.valueAs(value, unit), env.precision);
            && |r| > |unit|
            && r[|r| - |unit| - 1..] == " " + unit
            && var number := r[..|r| - |unit| - 1];
               && |number| <= |text| && number == text[..|number|]
               && (number == [] || number[|number| - 1] != '.')
  {
    var number := TrimNumber(env.roundStr(env.valueAs(value, unit), env.precision));
    var r := InUnit(env, value, unit);
    assert r == number + " " + unit;
    assert r[..|r| - |unit| - 1] == number;
    assert r[|r| - |unit| - 1..] == " " + unit;
  }

  /** A cell with a configured unit shows its value in that unit, ending in
      " " and the unit; a cell without one shows the rounded length
      `Quantity` as the host prints it, unit included, with no clean-up. */
  lemma DisplayRule(env: Numerals, value: real, unit: Option<string>)
    ensures unit.Some? ==> var r := Display(env, value, unit);
                           && r == InUnit(env, value, unit.value)
                           && |r| > |unit.value|
                           && r[|r| - |unit.value| - 1..] == " " + unit.value
    ensures unit.None? ==> Display(env, value, unit) == env.quantityStr(value, LengthQuantity, env.precision)
  {
    if unit.Some? {
      InUnitShape(env, value, unit.value);
    }
  }
}
