/**
 * Helpers of the docker monitor: the default message of a status response,
 * the padding step of lenient base64 decoding, and the extraction of the
 * service name from an authentication token.
 *
 * Base64 decoding and JSON parsing are library calls; they are parameters
 * here, functions that may fail.
 */
module Utils {
  import opened Options

  // ---------------------------------------------------------------------------
  // Status responses

  /** The JSON payload of a status response: a message and the status code. */
  datatype Payload = Payload(message: string, status: int)

  /** Whether an HTTP status is a success (2xx). */
  predicate IsSuccess(status: int) {
    200 <= status < 300
  }

  /**
   * The payload for `status`: a non-empty message is used as given;
   * otherwise the message is "ok" for a 2xx status and "Request failed" for
   * any other.
   */
  function FormatResponse(status: int, message: Option<string>): (r: Payload)
    ensures r.status == status
    ensures message.Some? && message.value != [] ==> r.message == message.value
    ensures (message.None? || message.value == []) ==>
      r.message == (if IsSuccess(status) then "ok" else "Request failed")
  {
    if message.Some? && message.value != [] then Payload(message.value, status)
    else if IsSuccess(status) then Payload("ok", status)
    else Payload("Request failed", status)
  }

  /**
   * The message is never empty, and a default message reads "ok" exactly
   * when the status is a success.
   */
  lemma DefaultMessage(status: int, message: Option<string>)
    ensures FormatResponse(status, message).message != []
    ensures message.None? ==> (FormatResponse(status, message).message == "ok" <==> IsSuccess(status))
  {
  }

  // ---------------------------------------------------------------------------
  // Base64 padding

  /** The padding character of base64. */
  const PadChar: char := '='

  /** `n` copies of the padding character. */
  function Padding(n: nat): (r: string)
    ensures |r| == n && forall i :: 0 <= i < n ==> r[i] == PadChar
  {
    if n == 0 then [] else [PadChar] + Padding(n - 1)
  }

  /** Whether `padded` is `data` followed by `=` characters only. */
  predicate PaddedFrom(data: string, padded: string) {
    |data| <= |padded| && padded[..|data|] == data &&
    forall i :: |data| <= i < |padded| ==> padded[i] == PadChar
  }

  /**
   * `data` padded with `=` to a length that is a multiple of 4: the input is
   * kept as a prefix and fewer than 4 characters are added.
   */
  function PadBase64(data: string): (r: string)
    ensures PaddedFrom(data, r)
    ensures |r| % 4 == 0
    ensures |r| - |data| <= 3
  {
    var missingPadding := |data| % 4;
    if missingPadding != 0 then data + Padding(4 - missingPadding) else data
  }

  /**
   * The padding is the shortest one: any padding of `data` to a multiple of
   * 4 is at least as long, so input already of such a length is unchanged.
   */
  lemma PadBase64Shortest(data: string, other: string)
    requires PaddedFrom(data, other) && |other| % 4 == 0
    ensures |PadBase64(data)| <= |other|
    ensures |data| % 4 == 0 ==> PadBase64(data) == data
  {
  }

  /** Padding twice is padding once. */
  lemma PadBase64Idempotent(data: string)
    ensures PadBase64(PadBase64(data)) == PadBase64(data)
  {
  }

  /**
   * Lenient base64 decoding: the library decoder is given the input padded
   * with `=` to the next multiple of 4 characters.
   */
  function DecodeBase64(data: string, b64decode: string -> Option<string>): (r: Option<string>)
    ensures forall padded :: PaddedFrom(data, padded) && |padded| % 4 == 0 && |padded| - |data| <= 3 ==>
      r == b64decode(padded)
  {
    PadsAgree(data);
    b64decode(PadBase64(data))
  }

  /** There is only one padding of `data` to a multiple of 4 that adds at most 3 characters. */
  lemma PadsAgree(data: string)
    ensures forall padded :: PaddedFrom(data, padded) && |padded| % 4 == 0 && |padded| - |data| <= 3 ==>
      padded == PadBase64(data)
  {
  }

  // ---------------------------------------------------------------------------
  // Splitting on a separator

  /**
   * The pieces of `s` between occurrences of `sep`, as Python's `str.split`
   * with an explicit separator: there is always at least one piece, no piece
   * contains the separator, and there is exactly one piece when `s` has no
   * separator.
   */
  function Split(s: string, sep: char): (r: seq<string>)
    ensures |r| >= 1
    ensures forall i :: 0 <= i < |r| ==> sep !in r[i]
    ensures |r| == 1 <==> sep !in s
  {
    if s == [] then [[]]
    else
      var rest := Split(s[1..], sep);
      if s[0] == sep then [[]] + rest
      else [[s[0]] + rest[0]] + rest[1..]
  }

  /** The pieces joined back with the separator. */
  function Join(parts: seq<string>, sep: char): string
    requires |parts| >= 1
  {
    if |parts| == 1 then parts[0] else parts[0] + [sep] + Join(parts[1..], sep)
  }

  /** Splitting loses nothing: joining the pieces gives the string back. */
  lemma {:induction false} SplitJoin(s: string, sep: char)
    ensures Join(Split(s, sep), sep) == s
  {
    if s != [] {
      var rest := Split(s[1..], sep);
      SplitJoin(s[1..], sep);
      var r := Split(s, sep);
      if s[0] == sep {
        assert r == [[]] + rest && r[1..] == rest;
      } else {
        assert r == [[s[0]] + rest[0]] + rest[1..];
        if |rest| > 1 {
          assert r[1..] == rest[1..];
          var tailJoin := Join(rest[1..], sep);
          assert ([s[0]] + rest[0]) + [sep] + tailJoin == [s[0]] + (rest[0] + [sep] + tailJoin);
        }
      }
      assert s == [s[0]] + s[1..];
    }
  }

  /** Position of the first separator in `s`. */
  function FirstIndex(s: string, sep: char): (r: nat)
    requires sep in s
    ensures r < |s| && s[r] == sep && sep !in s[..r]
  {
    if s[0] == sep then 0
    else
      var r := 1 + FirstIndex(s[1..], sep);
      assert s[..r] == [s[0]] + s[1..][..r - 1];
      r
  }

  /**
   * The second piece of `s`, as `s.split(sep)[1]`: absent exactly when `s`
   * has no separator; otherwise the text that starts right after the first
   * separator and runs to the next separator or to the end.
   */
  function SecondPiece(s: string, sep: char): (r: Option<string>)
    ensures r.None? <==> sep !in s
    ensures r.Some? ==> sep in s && sep !in r.value && PieceAt(s, sep, FirstIndex(s, sep) + 1, r.value)
  {
    var pieces := Split(s, sep);
    if |pieces| < 2 then None
    else
      SecondPieceLocated(s, sep);
      Some(pieces[1])
  }

  /** Whether `piece` occurs in `s` at `start` and is followed by a separator or the end. */
  predicate PieceAt(s: string, sep: char, start: nat, piece: string) {
    start + |piece| <= |s| && s[start..start + |piece|] == piece &&
    (start + |piece| == |s| || s[start + |piece|] == sep)
  }

  /** Where the second piece of a split lies in the string. */
  lemma {:induction false} SecondPieceLocated(s: string, sep: char)
    requires |Split(s, sep)| >= 2
    ensures sep in s && PieceAt(s, sep, FirstIndex(s, sep) + 1, Split(s, sep)[1])
  {
    var rest := Split(s[1..], sep);
    if s[0] == sep {
      assert Split(s, sep)[1] == rest[0];
      FirstPieceLocated(s[1..], sep);
      assert s[1..][..|rest[0]|] == s[1..1 + |rest[0]|];
    } else {
      assert Split(s, sep)[1] == rest[1];
      SecondPieceLocated(s[1..], sep);
      PieceAtCons(s, sep, FirstIndex(s[1..], sep) + 1, rest[1]);
    }
  }

  /** A piece at `start` in `s[1..]` is at `start + 1` in `s`. */
  lemma PieceAtCons(s: string, sep: char, start: nat, piece: string)
    requires |s| > 0 && PieceAt(s[1..], sep, start, piece)
    ensures PieceAt(s, sep, start + 1, piece)
  {
    assert s[start + 1..start + 1 + |piece|] == s[1..][start..start + |piece|];
  }

  /** The first piece of a split is the text before the first separator (or all of it). */
  lemma {:induction false} FirstPieceLocated(s: string, sep: char)
    ensures |Split(s, sep)[0]| <= |s| && s[..|Split(s, sep)[0]|] == Split(s, sep)[0]
    ensures |s| == |Split(s, sep)[0]| || s[|Split(s, sep)[0]|] == sep
  {
    if s != [] {
      FirstPieceLocated(s[1..], sep);
      if s[0] != sep {
        var rest := Split(s[1..], sep);
        assert Split(s, sep)[0] == [s[0]] + rest[0];
        assert s[..|rest[0]| + 1] == [s[0]] + s[1..][..|rest[0]|];
      }
    }
  }

  // ---------------------------------------------------------------------------
  // Service of an authentication token

  /** A parsed JSON value. */
  datatype Json =
    | JNull
    | JBool(b: bool)
    | JNumber(n: int)
    | JString(s: string)
    | JArray(items: seq<Json>)
    | JObject(fields: map<string, Json>)

  /**
   * The outcome of reading the service from a token: the value under
   * "service", a ValueError, or the IndexError of a token without a second
   * piece, which is raised outside the try and so is not converted.
   */
  datatype ServiceOutcome = Service(service: Json) | ValueError | IndexError

  /** The value under "service" of a JSON object; none for a non-object or a missing key. */
  function ServiceField(data: Json): (r: Option<Json>)
    ensures r.Some? <==> data.JObject? && "service" in data.fields
    ensures r.Some? ==> r.value == data.fields["service"]
  {
    if data.JObject? && "service" in data.fields then Some(data.fields["service"]) else None
  }

  /**
   * The service named by `token`: the "service" member of the JSON object
   * carried, base64-encoded, in the token's second dot-separated piece.
   * A missing or empty token is a ValueError; a token without a dot fails
   * with IndexError; a failure to decode, to parse, or to find the member
   * is a ValueError.
   */
  function GetAllowedService(
    token: Option<string>,
    b64decode: string -> Option<string>,
    parseJson: string -> Option<Json>): (r: ServiceOutcome)
    ensures token.None? || token.value == [] ==> r == ValueError
    ensures r == IndexError <==> token.Some? && token.value != [] && '.' !in token.value
    ensures r.Service? ==>
      token.Some? && SecondPiece(token.value, '.').Some? &&
      var raw := DecodeBase64(SecondPiece(token.value, '.').value, b64decode);
      raw.Some? && parseJson(raw.value).Some? &&
      ServiceField(parseJson(raw.value).value) == Some(r.service)
    ensures r == ValueError && token.Some? && token.value != [] ==>
      SecondPiece(token.value, '.').Some? &&
      var raw := DecodeBase64(SecondPiece(token.value, '.').value, b64decode);
      raw.None? || parseJson(raw.value).None? || ServiceField(parseJson(raw.value).value).None?
  {
    if token.None? || token.value == [] then ValueError
    else
      match SecondPiece(token.value, '.')
      case None => IndexError
      case Some(payload) =>
        match DecodeBase64(payload, b64decode)
        case None => ValueError
        case Some(raw) =>
          match parseJson(raw)
          case None => ValueError
          case Some(data) =>
            match ServiceField(data)
            case None => ValueError
            case Some(service) => Service(service)
  }
}
