/** Floats as a discrete grid, and the directed conversions from decimals onto it.

    A float is an index; `Spell` is the decimal its shortest text denotes and `read` the float a decimal
    is rounded to.  Nothing more is assumed than that reading is monotone and undoes spelling. */
module FloatGrid {
  import opened Common

  datatype Grid = Grid(read: real -> int, spell: int -> real, top: nat)
  {
    predicate Finite(f: int) { 0 - top <= f <= top }

    ghost predicate Valid() {
      && (forall x, y :: x <= y ==> read(x) <= read(y))
      && (forall f :: Finite(f) ==> read(spell(f)) == f)
      && spell(0) == 0.0
    }
  }

  /** The nearest float if it is not above the value, else its lower neighbour; never negative. */
  function LowerFloat(g: Grid, v: real): Result<int> {
    var c := g.read(v);
    if !g.Finite(c) then Raised
    else
      var down := if g.spell(c) > v then c - 1 else c;
      Ok(if down < 0 then 0 else down)
  }

  /** The nearest float if it is not below the value, else its upper neighbour, which may be infinite. */
  function UpperFloat(g: Grid, v: real): Result<int> {
    var c := g.read(v);
    if !g.Finite(c) then Raised else Ok(if g.spell(c) < v then c + 1 else c)
  }

  lemma Reads(g: Grid, x: real, y: real)
    requires g.Valid()
    ensures x <= y ==> g.read(x) <= g.read(y)
  {
  }

  lemma SpellOrdered(g: Grid, f: int, h: int)
    requires g.Valid() && g.Finite(f) && g.Finite(h)
    ensures f < h <==> g.spell(f) < g.spell(h)
  {
    Reads(g, g.spell(h), g.spell(f));
    Reads(g, g.spell(f), g.spell(h));
  }

  /** The lower conversion is the greatest float spelled at or below the value. */
  lemma LowerIsGreatest(g: Grid, v: real, f: int)
    requires g.Valid() && v >= 0.0 && LowerFloat(g, v).Ok? && 0 <= f <= g.top
    ensures var low := LowerFloat(g, v).value;
      && 0 <= low <= g.top && g.read(v) - 1 <= low <= g.read(v)
      && (g.spell(f) <= v <==> f <= low)
  {
    var c, low := g.read(v), LowerFloat(g, v).value;
    Reads(g, 0.0, v);
    Reads(g, v, g.spell(c - 1));
    Reads(g, g.spell(f), v);
    assert g.read(g.spell(0)) == 0;
    if g.spell(c) > v {
      assert c > 0 && g.read(g.spell(c - 1)) == c - 1;
      assert low == c - 1;
    } else {
      assert low == c;
    }
    assert g.spell(low) <= v;
    if f <= low { SpellOrdered(g, f, low); }
  }

  /** The upper conversion is the least float spelled at or above the value, or infinity. */
  lemma UpperIsLeast(g: Grid, v: real, f: int)
    requires g.Valid() && UpperFloat(g, v).Ok? && g.Finite(f)
    ensures var up := UpperFloat(g, v).value;
      && 0 - g.top <= up <= g.top + 1 && g.read(v) <= up <= g.read(v) + 1
      && (v <= g.spell(f) <==> up <= f)
  {
    var c, up := g.read(v), UpperFloat(g, v).value;
    Reads(g, g.spell(up), v);
    Reads(g, v, g.spell(f));
    assert g.Finite(up) ==> v <= g.spell(up);
    if up <= f { SpellOrdered(g, up, f); }
  }

  lemma LowerSpellsBelow(g: Grid, v: real)
    requires g.Valid() && v >= 0.0 && LowerFloat(g, v).Ok?
    ensures var low := LowerFloat(g, v).value; 0 <= low <= g.top && 0.0 <= g.spell(low) <= v
  {
    LowerIsGreatest(g, v, 0);
    LowerIsGreatest(g, v, LowerFloat(g, v).value);
    SpellOrdered(g, 0, LowerFloat(g, v).value);
  }

  lemma UpperSpellsAbove(g: Grid, v: real)
    requires g.Valid() && UpperFloat(g, v).Ok? && g.Finite(UpperFloat(g, v).value)
    ensures v <= g.spell(UpperFloat(g, v).value)
  {
    UpperIsLeast(g, v, UpperFloat(g, v).value);
  }

  /** A decimal that some float spells is converted to that float in both directions. */
  lemma SpelledIsExact(g: Grid, f: int)
    requires g.Valid() && 0 <= f <= g.top
    ensures LowerFloat(g, g.spell(f)) == Ok(f) && UpperFloat(g, g.spell(f)) == Ok(f)
  {
  }

  /** Conversion in either direction keeps order. */
  lemma LowerMonotone(g: Grid, v: real, w: real)
    requires g.Valid() && 0.0 <= v <= w && LowerFloat(g, v).Ok? && LowerFloat(g, w).Ok?
    ensures LowerFloat(g, v).value <= LowerFloat(g, w).value
  {
    LowerSpellsBelow(g, v);
    LowerIsGreatest(g, w, LowerFloat(g, v).value);
  }
}
