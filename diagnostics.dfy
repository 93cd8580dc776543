/** The diagnostic accessors of the filter: ParticleFilter::SetAssociations and
    ParticleFilter::getAssociations. */
module Diagnostics {
  import opened Types

  /** SetAssociations: the particle with its three diagnostic fields overwritten. The source
      writes through a reference and also returns the updated particle; here the caller's
      particle is replaced by the result. */
  function SetAssociations(p: Particle, associations: seq<int>, senseX: seq<real>, senseY: seq<real>): (r: Particle)
    ensures r.associations == associations && r.senseX == senseX && r.senseY == senseY
    ensures r.id == p.id && r.x == p.x && r.y == p.y && r.theta == p.theta && r.weight == p.weight
  {
    p.(associations := associations, senseX := senseX, senseY := senseY)
  }

  // ---------------------------------------------------------------------------
  // Decimal text of an int, as operator<< writes it

  predicate IsDigit(c: char)
  {
    '0' <= c <= '9'
  }

  predicate AllDigits(s: string)
  {
    forall i :: 0 <= i < |s| ==> IsDigit(s[i])
  }

  function DigitChar(d: nat): (c: char)
    requires d < 10
    ensures IsDigit(c)
  {
    (d + '0' as int) as char
  }

  function DigitValue(c: char): nat
    requires IsDigit(c)
  {
    c as int - '0' as int
  }

  /** Decimal digits of a natural number, most significant first, without leading zeros. */
  function NatToDecimal(n: nat): (s: string)
    ensures |s| > 0 && AllDigits(s)
  {
    if n < 10 then [DigitChar(n)] else NatToDecimal(n / 10) + [DigitChar(n % 10)]
  }

  /** The text operator<< writes for an int: a minus sign for negatives, then the digits. */
  function IntToDecimal(n: int): (s: string)
    ensures |s| > 0 && ' ' !in s
  {
    if n < 0 then "-" + NatToDecimal(-n) else NatToDecimal(n)
  }

  /** The value of a non-empty digit string. */
  function ParseDigits(s: string): nat
    requires |s| > 0 && AllDigits(s)
  {
    if |s| == 1 then DigitValue(s[0])
    else ParseDigits(s[..|s| - 1]) * 10 + DigitValue(s[|s| - 1])
  }

  /** Reads back an optionally signed decimal integer. */
  function ParseInt(s: string): Option<int>
  {
    if |s| > 1 && s[0] == '-' && AllDigits(s[1..]) then Some(-(ParseDigits(s[1..]) as int))
    else if |s| > 0 && AllDigits(s) then Some(ParseDigits(s))
    else None
  }

  lemma {:induction false} NatDecimalRoundTrip(n: nat)
    ensures ParseDigits(NatToDecimal(n)) == n
  {
    if n >= 10 {
      NatDecimalRoundTrip(n / 10);
      var s := NatToDecimal(n);
      assert s[..|s| - 1] == NatToDecimal(n / 10);
    }
  }

  /** Reading back the text of an int gives the int. */
  lemma IntDecimalRoundTrip(n: int)
    ensures ParseInt(IntToDecimal(n)) == Some(n)
  {
    var s := IntToDecimal(n);
    if n < 0 {
      assert s[1..] == NatToDecimal(-n);
      NatDecimalRoundTrip(-n);
    } else {
      NatDecimalRoundTrip(n);
      assert s[0] != '-';
    }
  }

  // ---------------------------------------------------------------------------
  // The association list as text

  /** The ids in order, separated by single spaces, with nothing before the first or after the last. */
  function AssociationsText(ids: seq<int>): string
  {
    if ids == [] then ""
    else if |ids| == 1 then IntToDecimal(ids[0])
    else IntToDecimal(ids[0]) + " " + AssociationsText(ids[1..])
  }

  /** What the ostream_iterator copy writes into the stream: each id followed by a space. */
  function StreamText(ids: seq<int>): string
  {
    if ids == [] then "" else StreamText(ids[..|ids| - 1]) + IntToDecimal(ids[|ids| - 1]) + " "
  }

  /** Appending an id at the end of the joined text adds one separator and its decimal text. */
  lemma {:induction false} AssociationsTextSnoc(ids: seq<int>, n: int)
    requires ids != []
    ensures AssociationsText(ids + [n]) == AssociationsText(ids) + " " + IntToDecimal(n)
    decreases |ids|
  {
    var head := IntToDecimal(ids[0]);
    assert (ids + [n])[0] == ids[0];
    assert (ids + [n])[1..] == ids[1..] + [n];
    assert AssociationsText(ids + [n]) == head + " " + AssociationsText(ids[1..] + [n]);
    if |ids| > 1 {
      AssociationsTextSnoc(ids[1..], n);
      calc {
        AssociationsText(ids + [n]);
        head + " " + AssociationsText(ids[1..] + [n]);
        head + " " + (AssociationsText(ids[1..]) + " " + IntToDecimal(n));
        (head + " " + AssociationsText(ids[1..])) + " " + IntToDecimal(n);
        AssociationsText(ids) + " " + IntToDecimal(n);
      }
    } else {
      assert ids[1..] + [n] == [n];
    }
  }

  /** The stream holds the joined text plus one trailing space. */
  lemma {:induction false} StreamTextIsJoinedPlusSpace(ids: seq<int>)
    requires ids != []
    ensures StreamText(ids) == AssociationsText(ids) + " "
  {
    var init, last := ids[..|ids| - 1], ids[|ids| - 1];
    if init != [] {
      StreamTextIsJoinedPlusSpace(init);
      AssociationsTextSnoc(init, last);
      assert init + [last] == ids;
    }
  }

  /** std::string::npos, the largest value of the 64-bit size type. */
  const SizeTypeMax: nat := 0xFFFF_FFFF_FFFF_FFFF

  /** getAssociations: the particle's association ids as text. The stream text loses its last
      character through substr(0, length() - 1); on an empty stream the count wraps round to
      npos and substr returns the whole (empty) string. */
  method GetAssociations(best: Particle) returns (s: string)
    ensures s == AssociationsText(best.associations)
  {
    var v := best.associations;
    var ss := "";
    var i := 0;
    while i < |v|
      invariant 0 <= i <= |v|
      invariant ss == StreamText(v[..i])
    {
      assert v[..i + 1][..i] == v[..i];
      assert StreamText(v[..i + 1]) == StreamText(v[..i]) + IntToDecimal(v[i]) + " ";
      ss := ss + IntToDecimal(v[i]) + " ";
      i := i + 1;
    }
    assert v[..|v|] == v;
    assert ss == StreamText(v);
    var count := if |ss| == 0 then SizeTypeMax else |ss| - 1;
    s := ss[..if count < |ss| then count else |ss|];
    if v != [] {
      StreamTextIsJoinedPlusSpace(v);
      assert ss == AssociationsText(v) + " ";
      assert s == ss[..|ss| - 1];
    } else {
      assert ss == "";
    }
  }

  // ---------------------------------------------------------------------------
  // Reading the text back

  /** Index of the first space in s. */
  function FirstSpace(s: string): (k: nat)
    requires ' ' in s
    ensures k < |s| && s[k] == ' ' && ' ' !in s[..k]
  {
    if s[0] == ' ' then 0
    else
      assert ' ' in s[1..];
      1 + FirstSpace(s[1..])
  }

  /** The fields of s between single spaces. */
  function SplitSpaces(s: string): seq<string>
    decreases |s|
  {
    if ' ' in s then
      var k := FirstSpace(s);
      [s[..k]] + SplitSpaces(s[k + 1..])
    else [s]
  }

  function ParseFields(fields: seq<string>): Option<seq<int>>
  {
    if fields == [] then Some([])
    else
      match ParseInt(fields[0])
      case None => None
      case Some(n) =>
        match ParseFields(fields[1..])
        case None => None
        case Some(rest) => Some([n] + rest)
  }

  /** Reads association text back into ids; the empty text is the empty list. */
  function ParseAssociations(s: string): Option<seq<int>>
  {
    if s == "" then Some([]) else ParseFields(SplitSpaces(s))
  }

  lemma FirstSpaceAfter(a: string, b: string)
    requires ' ' !in a
    ensures ' ' in a + " " + b && FirstSpace(a + " " + b) == |a|
  {
    var s := a + " " + b;
    assert s[|a|] == ' ';
  }

  /** A field without spaces followed by a space splits off as the first field. */
  lemma SplitSpacesCons(a: string, b: string)
    requires ' ' !in a
    ensures SplitSpaces(a + " " + b) == [a] + SplitSpaces(b)
  {
    var s := a + " " + b;
    FirstSpaceAfter(a, b);
    assert s[..|a|] == a;
    assert s[|a| + 1..] == b;
  }

  /** Splitting the joined text gives back the text of each id. */
  lemma {:induction false} SplitAssociationsText(ids: seq<int>)
    requires ids != []
    ensures SplitSpaces(AssociationsText(ids)) == seq(|ids|, i requires 0 <= i < |ids| => IntToDecimal(ids[i]))
  {
    if |ids| > 1 {
      var head, tail := IntToDecimal(ids[0]), AssociationsText(ids[1..]);
      assert AssociationsText(ids) == head + " " + tail;
      SplitSpacesCons(head, tail);
      SplitAssociationsText(ids[1..]);
      var rest := seq(|ids| - 1, i requires 0 <= i < |ids| - 1 => IntToDecimal(ids[1..][i]));
      assert [head] + rest == seq(|ids|, i requires 0 <= i < |ids| => IntToDecimal(ids[i]));
    }
  }

  lemma {:induction false} ParseFieldsOfDecimals(ids: seq<int>)
    ensures ParseFields(seq(|ids|, i requires 0 <= i < |ids| => IntToDecimal(ids[i]))) == Some(ids)
  {
    var fields := seq(|ids|, i requires 0 <= i < |ids| => IntToDecimal(ids[i]));
    if ids != [] {
      IntDecimalRoundTrip(ids[0]);
      ParseFieldsOfDecimals(ids[1..]);
      assert fields[1..] == seq(|ids[1..]|, i requires 0 <= i < |ids[1..]| => IntToDecimal(ids[1..][i]));
      assert [ids[0]] + ids[1..] == ids;
    }
  }

  /** The text getAssociations produces determines the association list: reading it back
      gives the ids, in order, and the empty list gives the empty string. */
  lemma AssociationsRoundTrip(ids: seq<int>)
    ensures ParseAssociations(AssociationsText(ids)) == Some(ids)
    ensures AssociationsText(ids) == "" <==> ids == []
  {
    if ids != [] {
      SplitAssociationsText(ids);
      ParseFieldsOfDecimals(ids);
      assert |AssociationsText(ids)| > 0 by {
        if |ids| > 1 {
          assert AssociationsText(ids) == IntToDecimal(ids[0]) + " " + AssociationsText(ids[1..]);
        }
      }
    }
  }
}
