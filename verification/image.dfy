/**
 * The profile-picture checks of the user service: the base64 test, the
 * two data-URL extractors, the MIME whitelist, and the order in which
 * `checkImage` applies them before the external suitability check.
 */
module ImageCheck {
  import opened Wrappers
  import Text

  /** One character of the class `[A-Za-z0-9+/]`. */
  predicate IsBase64Char(c: char) {
    ('A' <= c <= 'Z') || ('a' <= c <= 'z') || ('0' <= c <= '9') || c == '+' || c == '/'
  }

  predicate AllBase64Chars(s: string) {
    forall i :: 0 <= i < |s| ==> IsBase64Char(s[i])
  }

  /** `[A-Za-z0-9+/]{3}=` or `[A-Za-z0-9+/]{2}==`. */
  predicate PaddedGroup(g: string) {
    |g| == 4 && IsBase64Char(g[0]) && IsBase64Char(g[1])
    && ((IsBase64Char(g[2]) && g[3] == '=') || (g[2] == '=' && g[3] == '='))
  }

  /**
   * The language of `^([A-Za-z0-9+/]{4})*([A-Za-z0-9+/]{3}=|[A-Za-z0-9+/]{2}==)?$`:
   * whole groups of four alphabet characters, optionally followed by one
   * padded group.
   */
  predicate IsBase64(s: string) {
    || (|s| % 4 == 0 && AllBase64Chars(s))
    || (|s| >= 4 && (|s| - 4) % 4 == 0 && AllBase64Chars(s[..|s| - 4]) && PaddedGroup(s[|s| - 4..]))
  }

  /**
   * `isBase64` as a single left-to-right scan: the length must be a
   * multiple of four, at most two trailing '=' are padding, and every
   * other character must be in the alphabet.
   */
  method ScanBase64(s: string) returns (ok: bool)
    ensures ok <==> IsBase64(s)
    ensures ok ==> |s| % 4 == 0
  {
    if |s| % 4 != 0 {
      return false;
    }
    var pad := 0;
    if |s| >= 1 && s[|s| - 1] == '=' {
      pad := 1;
      if |s| >= 2 && s[|s| - 2] == '=' {
        pad := 2;
      }
    }
    var i := 0;
    while i < |s| - pad
      invariant 0 <= i <= |s| - pad
      invariant forall j :: 0 <= j < i ==> IsBase64Char(s[j])
    {
      if !IsBase64Char(s[i]) {
        assert !AllBase64Chars(s);
        assert |s| >= 4 ==> !AllBase64Chars(s[..|s| - 4]) || !PaddedGroup(s[|s| - 4..]) by {
          if |s| >= 4 && i < |s| - 4 {
            assert s[..|s| - 4][i] == s[i];
          }
        }
        return false;
      }
      i := i + 1;
    }
    if pad == 0 {
      return true;
    }
    assert !AllBase64Chars(s) by {
      assert !IsBase64Char(s[|s| - 1]);
    }
    assert |s| >= 4;
    var g := s[|s| - 4..];
    assert g[0] == s[|s| - 4] && g[1] == s[|s| - 3] && g[2] == s[|s| - 2] && g[3] == s[|s| - 1];
    return true;
  }

  /** `split(',')[1]`: the text between the first and second comma, if any. */
  function ExtractBase64(dataUrl: string): (r: Option<string>)
    ensures r.None? <==> ',' !in dataUrl
    ensures r.Some? ==> ',' !in r.value
    ensures r.Some? ==> Text.PieceAt(dataUrl, Text.FirstIndex(dataUrl, ',') + 1, ',', r.value)
  {
    var parts := Text.Split(dataUrl, ',');
    if |parts| < 2 then
      NoCommaIsOnePiece(dataUrl, ',');
      None
    else
      Text.SecondPiece(dataUrl, ',');
      Some(parts[1])
  }

  /** Without the separator, splitting yields the one piece, and with it, two or more. */
  lemma NoCommaIsOnePiece(s: string, c: char)
    ensures |Text.Split(s, c)| < 2 <==> c !in s
  {
    if c in s {
      Text.SecondPiece(s, c);
    }
  }

  /**
   * `v` is what `.split(':')[1].split(';')[0]` reads from `head`: the text
   * after the first ':' of `head`, up to the next ':' or ';' or the end.
   */
  predicate MimeField(head: string, v: string) {
    && ':' in head
    && var rest := head[Text.FirstIndex(head, ':') + 1..];
       && |v| <= |rest|
       && rest[..|v|] == v
       && (|v| == |rest| || rest[|v|] == ':' || rest[|v|] == ';')
  }

  /** The piece after the first ':', cut at its first ';', is the MIME field. */
  lemma MimePiece(head: string)
    requires ':' in head
    ensures |Text.Split(head, ':')| >= 2
    ensures MimeField(head, Text.Split(Text.Split(head, ':')[1], ';')[0])
    ensures var v := Text.Split(Text.Split(head, ':')[1], ';')[0]; ':' !in v && ';' !in v
  {
    var i := Text.FirstIndex(head, ':');
    var field := Text.Split(head, ':')[1];
    Text.SecondPiece(head, ':');
    var mime := Text.Split(field, ';')[0];
    Text.FirstPiece(field, ';');
    var rest := head[i + 1..];
    assert rest[..|field|] == field;
    assert rest[..|mime|] == field[..|mime|];
    if |mime| < |field| {
      assert rest[|mime|] == field[|mime|];
    } else if |field| < |rest| {
      assert rest[|field|] == head[i + 1 + |field|];
    }
    SubstringOmits(field, [], mime, ':');
  }

  /**
   * `split(',')[0].split(':')[1].split(';')[0]`: within the text before
   * the first comma, the text after the first ':' up to the next ':' or
   * ';'. Without a ':' there, reading `split` of `undefined` throws.
   */
  function ExtractMimeType(dataUrl: string): (r: Result<string, string>)
    ensures r.Failure? <==> ':' !in Text.Split(dataUrl, ',')[0]
    ensures r.Success? ==> MimeField(Text.Split(dataUrl, ',')[0], r.value)
    ensures r.Success? ==> ':' !in r.value && ';' !in r.value && ',' !in r.value
  {
    var head := Text.Split(dataUrl, ',')[0];
    var fields := Text.Split(head, ':');
    NoCommaIsOnePiece(head, ':');
    if |fields| < 2 then
      Failure("TypeError: Cannot read properties of undefined (reading 'split')")
    else
      MimePiece(head);
      MimeFieldOmits(head, Text.Split(fields[1], ';')[0], ',');
      Success(Text.Split(fields[1], ';')[0])
  }

  /** The MIME field is a stretch of `head` free of ':' and ';'. */
  lemma MimeFieldOmits(head: string, v: string, c: char)
    requires MimeField(head, v) && c !in head
    ensures c !in v
  {
    var i := Text.FirstIndex(head, ':');
    SubstringOmits(head, head[..i + 1], v, c);
  }

  lemma SubstringOmits(s: string, prefix: string, middle: string, c: char)
    requires c !in s
    requires |prefix| + |middle| <= |s| && s[|prefix|..|prefix| + |middle|] == middle
    ensures c !in middle
  {
    forall k | 0 <= k < |middle| ensures middle[k] != c {
      assert s[|prefix| + k] == middle[k];
    }
  }

  /** The MIME whitelist. */
  predicate HasValidMimeType(mime: string) {
    mime == "image/jpeg" || mime == "image/png"
  }

  /** How `checkImage` ends: `next()`, `next(err)` on a path, or a throw. */
  datatype Verdict = Accepted | Invalid(path: string, message: string) | Thrown(error: string)

  /**
   * `checkImage`: an empty or absent picture is accepted at once. The MIME
   * type is checked first, then the base64 part (`isBase64(undefined)`
   * tests the text "undefined"); either failure is "Invalid image format"
   * on `profilePicture`. Only a picture passing both is sent to the
   * suitability check, whose refusal is "Image is not suitable" and whose
   * throw propagates.
   */
  function CheckImage(picture: Option<string>, suitable: string -> Result<bool, string>): (v: Verdict)
    ensures picture.None? || picture == Some("") ==> v == Accepted
    ensures picture.Some? && picture.value != "" && ExtractMimeType(picture.value).Failure? ==>
      v == Thrown(ExtractMimeType(picture.value).error)
    ensures picture.Some? && picture.value != "" && ExtractMimeType(picture.value).Success? ==>
      var b64 := ExtractBase64(picture.value).GetOr("undefined");
      if !HasValidMimeType(ExtractMimeType(picture.value).value) || !IsBase64(b64) then
        v == Invalid("profilePicture", "Invalid image format")
      else
        match suitable(b64)
        case Success(ok) => v == (if ok then Accepted else Invalid("profilePicture", "Image is not suitable"))
        case Failure(e) => v == Thrown(e)
  {
    if picture.None? || picture.value == "" then Accepted
    else
      var url := picture.value;
      match ExtractMimeType(url)
      case Failure(e) => Thrown(e)
      case Success(mime) =>
        if !HasValidMimeType(mime) then Invalid("profilePicture", "Invalid image format")
        else
          var b64 := ExtractBase64(url).GetOr("undefined");
          if !IsBase64(b64) then Invalid("profilePicture", "Invalid image format")
          else
            match suitable(b64)
            case Success(ok) => if ok then Accepted else Invalid("profilePicture", "Image is not suitable")
            case Failure(e) => Thrown(e)
  }

  /** The suitability service is consulted only after both format checks pass. */
  lemma SuitabilityOnlyAfterFormatChecks(picture: Option<string>, suitable: string -> Result<bool, string>,
                                         suitable': string -> Result<bool, string>)
    requires CheckImage(picture, suitable) != CheckImage(picture, suitable')
    ensures picture.Some? && picture.value != ""
    ensures ExtractMimeType(picture.value).Success? && HasValidMimeType(ExtractMimeType(picture.value).value)
    ensures IsBase64(ExtractBase64(picture.value).GetOr("undefined"))
  {
  }

  // ---------------------------------------------------------------------
  // Standard base64 encoding, the reference the pattern is meant to accept.
  // ---------------------------------------------------------------------

  predicate IsByteString(bytes: seq<nat>) {
    forall i :: 0 <= i < |bytes| ==> bytes[i] < 256
  }

  /** The character for a six-bit value, in the order A-Z, a-z, 0-9, '+', '/'. */
  function Digit(i: nat): (c: char)
    requires i < 64
    ensures IsBase64Char(c)
  {
    if i < 26 then ('A' as int + i) as char
    else if i < 52 then ('a' as int + (i - 26)) as char
    else if i < 62 then ('0' as int + (i - 52)) as char
    else if i == 62 then '+'
    else '/'
  }

  /** Three bytes as four alphabet characters. */
  function EncodeGroup(b0: nat, b1: nat, b2: nat): (g: string)
    requires b0 < 256 && b1 < 256 && b2 < 256
    ensures |g| == 4 && AllBase64Chars(g)
  {
    [Digit(b0 / 4), Digit((b0 % 4) * 16 + b1 / 16), Digit((b1 % 16) * 4 + b2 / 64), Digit(b2 % 64)]
  }

  /** The last one or two bytes, padded with '=' to four characters. */
  function EncodeTail(bytes: seq<nat>): (g: string)
    requires IsByteString(bytes) && 1 <= |bytes| <= 2
    ensures PaddedGroup(g)
  {
    if |bytes| == 2 then
      [Digit(bytes[0] / 4), Digit((bytes[0] % 4) * 16 + bytes[1] / 16), Digit((bytes[1] % 16) * 4), '=']
    else
      [Digit(bytes[0] / 4), Digit((bytes[0] % 4) * 16), '=', '=']
  }

  /** The base64 text of `bytes`: four characters per three bytes, '=' padding. */
  function Encode(bytes: seq<nat>): (s: string)
    requires IsByteString(bytes)
    ensures |s| == 4 * ((|bytes| + 2) / 3)
    decreases |bytes|
  {
    if |bytes| >= 3 then
      assert (|bytes| + 2) / 3 == (|bytes[3..]| + 2) / 3 + 1;
      EncodeGroup(bytes[0], bytes[1], bytes[2]) + Encode(bytes[3..])
    else if |bytes| >= 1 then
      assert (|bytes| + 2) / 3 == 1;
      EncodeTail(bytes)
    else []
  }

  /** A full group of alphabet characters in front keeps a string base64. */
  lemma GroupThenBase64(g: string, rest: string)
    requires |g| == 4 && AllBase64Chars(g) && IsBase64(rest)
    ensures IsBase64(g + rest)
  {
    var s := g + rest;
    if |rest| % 4 == 0 && AllBase64Chars(rest) {
      forall i | 0 <= i < |s| ensures IsBase64Char(s[i]) {
        if i >= 4 {
          assert s[i] == rest[i - 4];
        }
      }
    } else {
      assert s[..|s| - 4] == g + rest[..|rest| - 4];
      assert s[|s| - 4..] == rest[|rest| - 4..];
      var body, restBody := s[..|s| - 4], rest[..|rest| - 4];
      forall i | 0 <= i < |body| ensures IsBase64Char(body[i]) {
        if i >= 4 {
          assert body[i] == restBody[i - 4];
        }
      }
    }
  }

  /** Every base64 encoding of a byte string passes `isBase64`. */
  lemma {:induction false} EncodingIsBase64(bytes: seq<nat>)
    requires IsByteString(bytes)
    ensures IsBase64(Encode(bytes))
    decreases |bytes|
  {
    if |bytes| >= 3 {
      var g := EncodeGroup(bytes[0], bytes[1], bytes[2]);
      assert Encode(bytes) == g + Encode(bytes[3..]);
      EncodingIsBase64(bytes[3..]);
      GroupThenBase64(g, Encode(bytes[3..]));
    } else if |bytes| > 0 {
      assert Encode(bytes) == EncodeTail(bytes);
      PaddedGroupIsBase64(EncodeTail(bytes));
    }
  }

  /** A lone padded group is base64. */
  lemma PaddedGroupIsBase64(g: string)
    requires PaddedGroup(g)
    ensures IsBase64(g)
  {
    assert g[..|g| - 4] == [];
    assert g[|g| - 4..] == g;
  }

  /** A data URL without a comma never passes: "undefined" is not base64. */
  lemma NoCommaIsInvalid(dataUrl: string)
    requires ',' !in dataUrl
    ensures !IsBase64(ExtractBase64(dataUrl).GetOr("undefined"))
  {
    assert |"undefined"| % 4 == 1;
  }
}
