/**
 * Brazilian tax ids (CPF: 11 digits, CNPJ: 14 digits): digit extraction and the
 * punctuation masks `XXX.XXX.XXX-XX` and `XX.XXX.XXX/XXXX-XX`.
 *
 * A mask is written with '#' for a slot and any other character for punctuation.
 * A string has the shape of a mask when it is as long as the mask and carries the
 * mask's punctuation in place; its slots are the characters on the '#' positions.
 * Shape and slots together determine a string (SlotsDetermine), so they are a
 * complete specification of a masked value.
 */
module Documents {

  predicate IsDigit(c: char) {
    '0' <= c <= '9'
  }

  predicate AllDigits(s: string) {
    forall i :: 0 <= i < |s| ==> IsDigit(s[i])
  }

  /** The digits of `s`, in order: what deleting every non-digit with a regular expression leaves. */
  function OnlyDigits(s: string): (r: string)
    ensures AllDigits(r)
    ensures |r| <= |s|
    ensures AllDigits(s) ==> r == s
  {
    if s == [] then []
    else
      assert AllDigits(s) ==> AllDigits(s[1..]) by {
        if AllDigits(s) {
          forall i | 0 <= i < |s[1..]| ensures IsDigit(s[1..][i]) {
            assert s[1..][i] == s[i + 1];
          }
        }
      }
      (if IsDigit(s[0]) then [s[0]] else []) + OnlyDigits(s[1..])
  }

  lemma {:induction false} OnlyDigitsAppend(a: string, b: string)
    ensures OnlyDigits(a + b) == OnlyDigits(a) + OnlyDigits(b)
  {
    if a == [] {
      assert a + b == b;
    } else {
      assert (a + b)[0] == a[0];
      assert (a + b)[1..] == a[1..] + b;
      OnlyDigitsAppend(a[1..], b);
    }
  }

  const CpfMask := "###.###.###-##"
  const CnpjMask := "##.###.###/####-##"

  /** `r` is as long as `mask` and has the mask's punctuation in place. */
  predicate Shaped(r: string, mask: string) {
    |r| == |mask| && forall i :: 0 <= i < |r| && mask[i] != '#' ==> r[i] == mask[i]
  }

  /** The characters of `r` on the '#' positions of `mask`, in order. */
  function Slots(r: string, mask: string): string
    requires |r| == |mask|
  {
    if mask == [] then []
    else (if mask[0] == '#' then [r[0]] else []) + Slots(r[1..], mask[1..])
  }

  lemma ShapedTail(r: string, mask: string)
    requires Shaped(r, mask) && mask != []
    ensures Shaped(r[1..], mask[1..])
  {
    forall i | 0 <= i < |r[1..]| && mask[1..][i] != '#' ensures r[1..][i] == mask[1..][i] {
      assert r[1..][i] == r[i + 1] && mask[1..][i] == mask[i + 1];
    }
  }

  /** Two strings of the same mask with the same slots are equal. */
  lemma {:induction false} SlotsDetermine(r1: string, r2: string, mask: string)
    requires Shaped(r1, mask) && Shaped(r2, mask)
    requires Slots(r1, mask) == Slots(r2, mask)
    ensures r1 == r2
  {
    if mask != [] {
      ShapedTail(r1, mask);
      ShapedTail(r2, mask);
      if mask[0] == '#' {
        assert Slots(r1, mask)[0] == r1[0] && Slots(r2, mask)[0] == r2[0];
        assert Slots(r1[1..], mask[1..]) == Slots(r1, mask)[1..];
        assert Slots(r2[1..], mask[1..]) == Slots(r2, mask)[1..];
      } else {
        assert r1[0] == mask[0] == r2[0];
        assert Slots(r1, mask) == Slots(r1[1..], mask[1..]);
        assert Slots(r2, mask) == Slots(r2[1..], mask[1..]);
      }
      SlotsDetermine(r1[1..], r2[1..], mask[1..]);
      assert r1 == [r1[0]] + r1[1..];
      assert r2 == [r2[0]] + r2[1..];
    }
  }

  lemma {:induction false} SlotsAppend(r1: string, m1: string, r2: string, m2: string)
    requires |r1| == |m1| && |r2| == |m2|
    ensures Slots(r1 + r2, m1 + m2) == Slots(r1, m1) + Slots(r2, m2)
  {
    if m1 == [] {
      assert r1 + r2 == r2 && m1 + m2 == m2;
    } else {
      var r, m := r1 + r2, m1 + m2;
      assert r[0] == r1[0] && m[0] == m1[0];
      assert r[1..] == r1[1..] + r2;
      assert m[1..] == m1[1..] + m2;
      SlotsAppend(r1[1..], m1[1..], r2, m2);
      var h := if m1[0] == '#' then [r1[0]] else [];
      assert Slots(r, m) == h + Slots(r[1..], m[1..]);
      assert Slots(r1, m1) == h + Slots(r1[1..], m1[1..]);
    }
  }

  lemma ShapedAppend(r1: string, m1: string, r2: string, m2: string)
    requires Shaped(r1, m1) && Shaped(r2, m2)
    ensures Shaped(r1 + r2, m1 + m2)
  {
    forall i | 0 <= i < |r1 + r2| && (m1 + m2)[i] != '#' ensures (r1 + r2)[i] == (m1 + m2)[i] {
      if i >= |r1| {
        assert (r1 + r2)[i] == r2[i - |r1|] && (m1 + m2)[i] == m2[i - |m1|];
      }
    }
  }

  /** A run of slots only: its slots are the string itself. */
  lemma {:induction false} SlotsOfRun(x: string, m: string)
    requires |x| == |m| && forall i :: 0 <= i < |m| ==> m[i] == '#'
    ensures Shaped(x, m) && Slots(x, m) == x
  {
    if m != [] {
      SlotsOfRun(x[1..], m[1..]);
      assert x == [x[0]] + x[1..];
    }
  }

  /** One punctuation character: no slot. */
  lemma SlotsOfPunctuation(c: char)
    requires c != '#'
    ensures Shaped([c], [c]) && Slots([c], [c]) == []
  {
  }

  /** The CPF mask around an 11-character document: slices of 3, 3, 3 and 2 joined by ".", "." and "-". */
  function MascaraCpf(d: string): string
    requires |d| == 11
  {
    d[..3] + "." + d[3..6] + "." + d[6..9] + "-" + d[9..]
  }

  /** The CNPJ mask around a 14-character document: slices of 2, 3, 3, 4 and 2 joined by ".", ".", "/" and "-". */
  function MascaraCnpj(d: string): string
    requires |d| == 14
  {
    d[..2] + "." + d[2..5] + "." + d[5..8] + "/" + d[8..12] + "-" + d[12..]
  }

  /** Adds one slot run and one punctuation character to a shaped prefix. */
  lemma ExtendMask(r: string, m: string, x: string, mx: string, c: char)
    requires Shaped(r, m) && |x| == |mx| && (forall i :: 0 <= i < |mx| ==> mx[i] == '#') && c != '#'
    ensures Shaped(r + x + [c], m + mx + [c])
    ensures Slots(r + x + [c], m + mx + [c]) == Slots(r, m) + x
  {
    SlotsOfRun(x, mx);
    SlotsOfPunctuation(c);
    ShapedAppend(r, m, x, mx);
    SlotsAppend(r, m, x, mx);
    ShapedAppend(r + x, m + mx, [c], [c]);
    SlotsAppend(r + x, m + mx, [c], [c]);
  }

  /** The CPF mask puts the 11 characters of `d`, in order, on the slots of `XXX.XXX.XXX-XX`. */
  lemma MascaraCpfSpec(d: string)
    requires |d| == 11
    ensures Shaped(MascaraCpf(d), CpfMask) && Slots(MascaraCpf(d), CpfMask) == d
  {
    var r0 := d[..3] + ".";
    ExtendMask([], [], d[..3], "###", '.');
    assert [] + d[..3] + ['.'] == r0 && [] + "###" + ['.'] == "###.";
    assert Slots(r0, "###.") == d[..3];
    var r1 := r0 + d[3..6] + ".";
    ExtendMask(r0, "###.", d[3..6], "###", '.');
    assert r0 + d[3..6] + ['.'] == r1 && "###." + "###" + ['.'] == "###.###.";
    assert Slots(r1, "###.###.") == d[..3] + d[3..6];
    var r2 := r1 + d[6..9] + "-";
    ExtendMask(r1, "###.###.", d[6..9], "###", '-');
    assert r1 + d[6..9] + ['-'] == r2 && "###.###." + "###" + ['-'] == "###.###.###-";
    assert Slots(r2, "###.###.###-") == d[..3] + d[3..6] + d[6..9];
    SlotsOfRun(d[9..], "##");
    ShapedAppend(r2, "###.###.###-", d[9..], "##");
    SlotsAppend(r2, "###.###.###-", d[9..], "##");
    assert "###.###.###-" + "##" == CpfMask;
    assert r2 + d[9..] == MascaraCpf(d);
    assert d[..3] + d[3..6] + d[6..9] + d[9..] == d;
  }

    /** The first three groups of the CNPJ mask: `XX.XXX.XXX/`. */
  lemma CnpjPrefixo(d: string)
    requires |d| == 14
    ensures Shaped(d[..2] + "." + d[2..5] + "." + d[5..8] + "/", "##.###.###/")
    ensures Slots(d[..2] + "." + d[2..5] + "." + d[5..8] + "/", "##.###.###/") == d[..8]
  {
    var r0 := d[..2] + ".";
    ExtendMask([], [], d[..2], "##", '.');
    assert [] + d[..2] + ['.'] == r0 && [] + "##" + ['.'] == "##.";
    var r1 := r0 + d[2..5] + ".";
    ExtendMask(r0, "##.", d[2..5], "###", '.');
    assert r0 + d[2..5] + ['.'] == r1 && "##." + "###" + ['.'] == "##.###.";
    var r2 := r1 + d[5..8] + "/";
    ExtendMask(r1, "##.###.", d[5..8], "###", '/');
    assert r1 + d[5..8] + ['/'] == r2 && "##.###." + "###" + ['/'] == "##.###.###/";
    assert d[..2] + d[2..5] + d[5..8] == d[..8];
  }

  /** The CNPJ mask puts the 14 characters of `d`, in order, on the slots of `XX.XXX.XXX/XXXX-XX`. */
  lemma MascaraCnpjSpec(d: string)
    requires |d| == 14
    ensures Shaped(MascaraCnpj(d), CnpjMask) && Slots(MascaraCnpj(d), CnpjMask) == d
  {
    var r2 := d[..2] + "." + d[2..5] + "." + d[5..8] + "/";
    CnpjPrefixo(d);
    var r3 := r2 + d[8..12] + "-";
    ExtendMask(r2, "##.###.###/", d[8..12], "####", '-');
    assert r2 + d[8..12] + ['-'] == r3 && "##.###.###/" + "####" + ['-'] == "##.###.###/####-";
    SlotsOfRun(d[12..], "##");
    ShapedAppend(r3, "##.###.###/####-", d[12..], "##");
    SlotsAppend(r3, "##.###.###/####-", d[12..], "##");
    assert "##.###.###/####-" + "##" == CnpjMask;
    assert r3 + d[12..] == MascaraCnpj(d);
    assert d[..8] + d[8..12] + d[12..] == d;
  }

  /**
   * Formatting of a tax id for the authority: strip every non-digit, then mask 11 digits as a CPF and
   * 14 digits as a CNPJ; any other number of digits comes back stripped but unmasked.
   */
  function FormatarCpfCnpj(valor: string): (r: string)
    ensures var d := OnlyDigits(valor);
      && (|d| == 11 ==> |r| == 14 && Shaped(r, CpfMask) && Slots(r, CpfMask) == d)
      && (|d| == 14 ==> |r| == 18 && Shaped(r, CnpjMask) && Slots(r, CnpjMask) == d)
      && (|d| != 11 && |d| != 14 ==> r == d)
  {
    var d := OnlyDigits(valor);
    if |d| == 11 then
      MascaraCpfSpec(d);
      MascaraCpf(d)
    else if |d| == 14 then
      MascaraCnpjSpec(d);
      MascaraCnpj(d)
    else
      d
  }

  /** Removing the punctuation of a shaped string whose mask has no digits leaves the digits of its slots. */
  lemma {:induction false} OnlyDigitsOfShaped(r: string, mask: string)
    requires Shaped(r, mask) && forall i :: 0 <= i < |mask| ==> !IsDigit(mask[i])
    ensures OnlyDigits(r) == OnlyDigits(Slots(r, mask))
  {
    if mask != [] {
      ShapedTail(r, mask);
      OnlyDigitsOfShaped(r[1..], mask[1..]);
      var head := if mask[0] == '#' then [r[0]] else [];
      assert Slots(r, mask) == head + Slots(r[1..], mask[1..]);
      OnlyDigitsAppend(head, Slots(r[1..], mask[1..]));
    }
  }

  /** Round trip: the digits of the formatted value are exactly the digits of the input, in order. */
  lemma FormatarCpfCnpjDigits(valor: string)
    ensures OnlyDigits(FormatarCpfCnpj(valor)) == OnlyDigits(valor)
  {
    var d := OnlyDigits(valor);
    var r := FormatarCpfCnpj(valor);
    if |d| == 11 {
      OnlyDigitsOfShaped(r, CpfMask);
    } else if |d| == 14 {
      OnlyDigitsOfShaped(r, CnpjMask);
    }
  }

  /** Formatting is idempotent: a formatted value formats to itself. */
  lemma FormatarCpfCnpjIdempotent(valor: string)
    ensures FormatarCpfCnpj(FormatarCpfCnpj(valor)) == FormatarCpfCnpj(valor)
  {
    var r := FormatarCpfCnpj(valor);
    FormatarCpfCnpjDigits(valor);
    var r2 := FormatarCpfCnpj(r);
    var d := OnlyDigits(valor);
    if |d| == 11 {
      SlotsDetermine(r, r2, CpfMask);
    } else if |d| == 14 {
      SlotsDetermine(r, r2, CnpjMask);
    }
  }
}
