/**
 * How a download operation names its files and picks the extension of the final file
 * (FileLoadOperation's two constructors and the naming part of `start`).
 */
module FileNames {
  import opened Wrappers
  import opened JavaInt

  // ---------------------------------------------------------------------------
  // Decimal text of a Java `int` or `long`, as string concatenation produces it.

  predicate IsDigit(c: char) {
    '0' <= c <= '9'
  }

  function DigitChar(d: nat): (c: char)
    requires d < 10
    ensures IsDigit(c) && c as int - '0' as int == d
  {
    ('0' as int + d) as char
  }

  function NatToDecimal(n: nat): (s: string)
    ensures |s| > 0
    ensures forall i :: 0 <= i < |s| ==> IsDigit(s[i])
    ensures s[0] == '0' <==> n == 0
    decreases n
  {
    if n < 10 then [DigitChar(n)] else NatToDecimal(n / 10) + [DigitChar(n % 10)]
  }

  /** `Integer.toString` / `Long.toString`: a minus sign for negative values, no leading zeros. */
  function IntToDecimal(n: int): (s: string)
    ensures |s| > 0
    ensures forall i :: 0 <= i < |s| ==> s[i] == '-' || IsDigit(s[i])
    ensures s[0] == '-' <==> n < 0
    ensures s[0] == '0' <==> n == 0
  {
    if n < 0 then "-" + NatToDecimal(-n) else NatToDecimal(n)
  }

  /** Reads back the digits written by NatToDecimal. */
  function DecimalValue(s: string): nat {
    if s == [] then 0
    else
      var c := s[|s| - 1];
      DecimalValue(s[..|s| - 1]) * 10 + (if IsDigit(c) then c as int - '0' as int else 0)
  }

  function SignedDecimalValue(s: string): int {
    if |s| > 0 && s[0] == '-' then -(DecimalValue(s[1..]) as int) else DecimalValue(s)
  }

  lemma {:induction false} NatDecimalRoundTrip(n: nat)
    ensures DecimalValue(NatToDecimal(n)) == n
    decreases n
  {
    if n >= 10 {
      var s := NatToDecimal(n);
      assert s[..|s| - 1] == NatToDecimal(n / 10);
      NatDecimalRoundTrip(n / 10);
    }
  }

  lemma IntDecimalRoundTrip(n: int)
    ensures SignedDecimalValue(IntToDecimal(n)) == n
  {
    if n < 0 {
      var s := IntToDecimal(n);
      assert s[1..] == NatToDecimal(-n);
      NatDecimalRoundTrip(-n);
    } else {
      assert IsDigit(NatToDecimal(n)[0]);
      NatDecimalRoundTrip(n);
    }
  }

  /** Different numbers are written differently. */
  lemma DecimalInjective(a: int, b: int)
    requires IntToDecimal(a) == IntToDecimal(b)
    ensures a == b
  {
    IntDecimalRoundTrip(a);
    IntDecimalRoundTrip(b);
  }

  // ---------------------------------------------------------------------------
  // File names

  /** `a + "_" + b`: the identifier pair every file name starts with. */
  function IdPair(a: int, b: int): (s: string)
    ensures '_' in s
  {
    IntToDecimal(a) + "_" + IntToDecimal(b)
  }

  /** The two names `start` derives: the temporary file and the final file. */
  datatype Names = Names(temp: string, final: string)

  /** The remote location as the Java `InputFileLocation` object holds it; unused fields are 0. */
  datatype InputFileLocation = InputFileLocation(volumeId: Int64, localId: Int32, id: Int64, accessHash: Int64)

  /**
   * The naming and validation part of `start`. A location with a nonzero volume and local id is
   * named photo-style (`volume_local.temp`, `volume_local.` + ext); any other location is named
   * document-style (`dc_id.temp`, `dc_id` + ext, with no separator before ext). Each style has its
   * own rejection rule; a rejected location yields `Err(())`, reported as failure code 0.
   */
  function ResolveNames(loc: InputFileLocation, datacenterId: Int32, ext: string): (r: Result<Names, ()>)
    ensures loc.volumeId != 0 && loc.localId != 0 ==>
      (r.Err? <==> datacenterId == INT_MIN || loc.volumeId == INT_MIN || datacenterId == 0)
    ensures !(loc.volumeId != 0 && loc.localId != 0) ==>
      (r.Err? <==> datacenterId == 0 || loc.id == 0)
    ensures r.Ok? ==> IsTempName(r.value.temp)
  {
    if loc.volumeId != 0 && loc.localId != 0 then
      if datacenterId == INT_MIN || loc.volumeId == INT_MIN || datacenterId == 0 then Err(())
      else Ok(Names(IdPair(loc.volumeId, loc.localId) + ".temp", IdPair(loc.volumeId, loc.localId) + "." + ext))
    else
      if datacenterId == 0 || loc.id == 0 then Err(())
      else Ok(Names(IdPair(datacenterId, loc.id) + ".temp", IdPair(datacenterId, loc.id) + ext))
  }

  predicate IsTempName(s: string) {
    |s| >= 5 && s[|s| - 5..] == ".temp"
  }

  /** A photo's final name is its temp name with `temp` replaced by the extension. */
  lemma PhotoNamesShareStem(loc: InputFileLocation, datacenterId: Int32, ext: string)
    requires ResolveNames(loc, datacenterId, ext).Ok?
    requires loc.volumeId != 0 && loc.localId != 0
    ensures var n := ResolveNames(loc, datacenterId, ext).value;
      n.temp == IdPair(loc.volumeId, loc.localId) + ".temp" &&
      n.final == n.temp[..|n.temp| - 4] + ext
  {
  }

  /** A document's final name is its identifier pair followed directly by ext: no dot is added. */
  lemma DocumentNamesShareStem(loc: InputFileLocation, datacenterId: Int32, ext: string)
    requires ResolveNames(loc, datacenterId, ext).Ok?
    requires !(loc.volumeId != 0 && loc.localId != 0)
    ensures var n := ResolveNames(loc, datacenterId, ext).value;
      n.temp == IdPair(datacenterId, loc.id) + ".temp" &&
      n.final == n.temp[..|n.temp| - 5] + ext
  {
  }

  /** Position of the first `_` in `s`, or `|s|` when there is none. */
  function FirstUnderscore(s: string): (i: nat)
    ensures i <= |s|
  {
    if s == [] || s[0] == '_' then 0 else 1 + FirstUnderscore(s[1..])
  }

  lemma NoUnderscoreInDecimal(n: int)
    ensures '_' !in IntToDecimal(n)
  {
  }

  lemma {:induction false} FirstUnderscoreAfter(x: string, rest: string)
    requires '_' !in x
    ensures FirstUnderscore(x + "_" + rest) == |x|
  {
    if x != [] {
      assert (x + "_" + rest)[1..] == x[1..] + "_" + rest;
      FirstUnderscoreAfter(x[1..], rest);
    }
  }

  /** The identifier pair can be read back from a name: different pairs give different names. */
  lemma {:induction false} IdPairInjective(a1: int, b1: int, a2: int, b2: int, suffix: string)
    requires IdPair(a1, b1) + suffix == IdPair(a2, b2) + suffix
    ensures a1 == a2 && b1 == b2
  {
    var x1, y1 := IntToDecimal(a1), IntToDecimal(b1);
    var x2, y2 := IntToDecimal(a2), IntToDecimal(b2);
    var s := IdPair(a1, b1) + suffix;
    assert s == x1 + "_" + (y1 + suffix) == x2 + "_" + (y2 + suffix);
    NoUnderscoreInDecimal(a1);
    NoUnderscoreInDecimal(a2);
    FirstUnderscoreAfter(x1, y1 + suffix);
    FirstUnderscoreAfter(x2, y2 + suffix);
    assert x1 == s[..|x1|] == x2;
    assert y1 == s[|x1| + 1..|s| - |suffix|] == y2;
    DecimalInjective(a1, a2);
    DecimalInjective(b1, b2);
  }

  /** Two photo locations share a temp file only when they have the same volume and local id. */
  lemma PhotoTempNamesDistinct(l1: InputFileLocation, l2: InputFileLocation, dc1: Int32, dc2: Int32, e1: string, e2: string)
    requires l1.volumeId != 0 && l1.localId != 0 && l2.volumeId != 0 && l2.localId != 0
    requires ResolveNames(l1, dc1, e1).Ok? && ResolveNames(l2, dc2, e2).Ok?
    requires ResolveNames(l1, dc1, e1).value.temp == ResolveNames(l2, dc2, e2).value.temp
    ensures l1.volumeId == l2.volumeId && l1.localId == l2.localId
  {
    IdPairInjective(l1.volumeId, l1.localId, l2.volumeId, l2.localId, ".temp");
  }

  /** Two document locations share a temp file only when they have the same datacenter and id. */
  lemma DocumentTempNamesDistinct(l1: InputFileLocation, l2: InputFileLocation, dc1: Int32, dc2: Int32, e1: string, e2: string)
    requires !(l1.volumeId != 0 && l1.localId != 0) && !(l2.volumeId != 0 && l2.localId != 0)
    requires ResolveNames(l1, dc1, e1).Ok? && ResolveNames(l2, dc2, e2).Ok?
    requires ResolveNames(l1, dc1, e1).value.temp == ResolveNames(l2, dc2, e2).value.temp
    ensures dc1 == dc2 && l1.id == l2.id
  {
    IdPairInjective(dc1, l1.id, dc2, l2.id, ".temp");
  }

  /** The two naming styles share one pattern: photo (2, 5) and document 5 in datacenter 2 share a temp name. */
  lemma PhotoAndDocumentTempNamesMayCoincide()
    ensures ResolveNames(InputFileLocation(2, 5, 0, 0), 1, "jpg").value.temp
         == ResolveNames(InputFileLocation(0, 0, 5, 7), 2, ".pdf").value.temp
  {
  }

  // ---------------------------------------------------------------------------
  // Extensions

  /** The photo constructor: the given extension, `jpg` when none is given. */
  function PhotoExtension(extension: Option<string>): (ext: string)
    ensures extension.Some? ==> ext == extension.value
    ensures extension.None? ==> ext == "jpg"
  {
    extension.GetOr("jpg")
  }

  /** `s.lastIndexOf(c)` when it is not -1. */
  function LastIndexOf(s: string, c: char): (r: Option<nat>)
    ensures r.Some? ==> r.value < |s| && s[r.value] == c && c !in s[r.value + 1..]
    ensures r.None? ==> c !in s
  {
    if s == [] then None
    else if s[|s| - 1] == c then Some(|s| - 1)
    else
      var r := LastIndexOf(s[..|s| - 1], c);
      assert s == s[..|s| - 1] + [s[|s| - 1]];
      r
  }

  /** The exact-match MIME table used when the file name gives no usable extension. */
  function MimeExtension(mimeType: Option<string>): (ext: string)
    ensures ext in {"", ".mp4", ".ogg"}
    ensures ext == ".mp4" <==> mimeType == Some("video/mp4")
    ensures ext == ".ogg" <==> mimeType == Some("audio/ogg")
  {
    match mimeType
    case Some("video/mp4") => ".mp4"
    case Some("audio/ogg") => ".ogg"
    case _ => ""
  }

  /**
   * The document constructor: the file name's suffix from its last `.` (dot included), unless that
   * suffix is at most one character long (a bare dot) or there is no dot; then the MIME table.
   */
  function DocumentExtension(fileName: Option<string>, mimeType: Option<string>): (ext: string)
    ensures ext == "" || (|ext| >= 2 && ext[0] == '.')
  {
    var suffix :=
      if fileName.None? then ""
      else match LastIndexOf(fileName.value, '.')
        case None => ""
        case Some(i) => fileName.value[i..];
    if |suffix| <= 1 then MimeExtension(mimeType) else suffix
  }

  /** When the name has a real extension, it is used as is: a dot, then at least one non-dot character. */
  lemma DocumentExtensionFromName(name: string, mimeType: Option<string>, i: nat)
    requires i + 1 < |name| && name[i] == '.' && '.' !in name[i + 1..]
    ensures DocumentExtension(Some(name), mimeType) == name[i..]
  {
    var j := LastIndexOf(name, '.');
  }

  /** Without a usable suffix in the name, the extension depends on the MIME type alone. */
  lemma DocumentExtensionFallback(fileName: Option<string>, mimeType: Option<string>)
    requires fileName.None? || '.' !in fileName.value
      || (fileName.value != [] && fileName.value[|fileName.value| - 1] == '.')
    ensures DocumentExtension(fileName, mimeType) == MimeExtension(mimeType)
  {
  }
}
