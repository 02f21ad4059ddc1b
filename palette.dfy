/** The colour table the app hands to its plots (class Palette in
    Xcode/SmartSensors/src/ofApp.cpp): red, green and blue first, random
    light colours after them, and a table that only ever grows. */
module Colors {

  /** An ofColor: red, green, blue and alpha channels. */
  datatype Color = Color(r: nat, g: nat, b: nat, a: nat)

  const Red: Color := Color(255, 0, 0, 255)
  const Green: Color := Color(0, 255, 0, 255)
  const Blue: Color := Color(0, 0, 255, 255)

  /** A default-constructed ofColor. */
  const White: Color := Color(255, 255, 255, 255)

  /** The size the table has from construction on. */
  const InitialSize: nat := 256

  /** A colour whose red, green and blue came from ofRandom(50, 255). */
  predicate Light(c: Color)
  {
    50 <= c.r <= 255 && 50 <= c.g <= 255 && 50 <= c.b <= 255
  }

  predicate Opaque(colors: seq<Color>)
  {
    forall i | 0 <= i < |colors| :: colors[i].a == 255
  }

  /** What do_generate leaves: red, green, blue in the first three places
      (as far as the table reaches), light colours after them, all opaque. */
  predicate WellFormedTable(colors: seq<Color>)
  {
    && (|colors| >= 1 ==> colors[0] == Red)
    && (|colors| >= 2 ==> colors[1] == Green)
    && (|colors| >= 3 ==> colors[2] == Blue)
    && (forall i | 3 <= i < |colors| :: Light(colors[i]))
    && Opaque(colors)
  }

  /** A prefix of a well-formed table is a well-formed table. */
  lemma PrefixWellFormed(colors: seq<Color>, n: nat)
    requires WellFormedTable(colors) && n <= |colors|
    ensures WellFormedTable(colors[..n])
  {
  }

  class Palette {
    var size: nat
    var colors: seq<Color>

    ghost predicate Valid()
      reads this
    {
      size >= InitialSize && |colors| == size && WellFormedTable(colors)
    }

    /** Palette(): a table of the initial size. */
    constructor ()
      ensures Valid() && size == InitialSize
    {
      size := InitialSize;
      colors := [];
      new;
      DoGenerate(size);
    }

    /** do_generate: resizes the table to n (new places start as default
        colours), sets red, green and blue, then picks light colours for
        every later place. The random choice is any value in [50, 255]. */
    method DoGenerate(n: nat)
      requires Opaque(colors)
      modifies this`colors
      ensures |colors| == n && WellFormedTable(colors)
    {
      var c := if n <= |colors| then colors[..n] else colors + seq(n - |colors|, _ => White);
      if n >= 1 { c := c[0 := Red]; }
      if n >= 2 { c := c[1 := Green]; }
      if n >= 3 { c := c[2 := Blue]; }
      var k := 3;
      while k < n
        invariant |c| == n && Opaque(c)
        invariant n >= 3 ==> 3 <= k <= n
        invariant n >= 1 ==> c[0] == Red
        invariant n >= 2 ==> c[1] == Green
        invariant n >= 3 ==> c[2] == Blue
        invariant forall i | 3 <= i < k && i < n :: Light(c[i])
      {
        var red: nat :| 50 <= red <= 255;
        var green: nat :| 50 <= green <= 255;
        var blue: nat :| 50 <= blue <= 255;
        c := c[k := Color(red, green, blue, c[k].a)];
        k := k + 1;
      }
      colors := c;
    }

    /** generate: n colours. The table is regenerated only when n exceeds
        its size, which then becomes n; it never shrinks. */
    method Generate(n: nat) returns (r: seq<Color>)
      requires Valid()
      modifies this
      ensures Valid()
      ensures size == if n > old(size) then n else old(size)
      ensures n <= old(size) ==> colors == old(colors)
      ensures r == colors[..n]
      ensures |r| == n && WellFormedTable(r)
    {
      if n > size {
        size := n;
        DoGenerate(size);
      }
      r := colors[..n];
      PrefixWellFormed(colors, n);
    }
  }
}
