/**
 * Values shared by every part of the model: Go's `error` values, the
 * value-or-error outcome of one fetch, the `(float64, error)` pair that the
 * provider adapters write through their out-pointers, the abstract HTTP reply,
 * and `strings.Join`.
 */
module Base {

  datatype Option<+T> = None | Some(value: T)

  /**
   * A Go `error`. `Message` is any error known only by its text
   * (`errors.New`, `fmt.Errorf`, an error returned by the HTTP client or by
   * encoding/json); `NumError` is the `*strconv.NumError` that
   * `strconv.ParseFloat` returns for the given input.
   */
  datatype Error = Message(text: string) | NumError(input: string)

  /** Exactly one of a value or an error: what one channel-based fetch sends. */
  datatype Outcome<+T> = Value(value: T) | Failed(error: Error)

  /** A Go `(float64, error)` result; `err == None` is Go's `err == nil`. */
  datatype Reading = Reading(value: real, err: Option<Error>)

  /**
   * The reply of `HTTPClient.Get` together with `ioutil.ReadAll` of its body:
   * either an error of the transport (connection, timeout, reading the body)
   * or a status code, the status text (`resp.Status`) and the whole body.
   */
  datatype Reply =
    | TransportError(error: Error)
    | Response(statusCode: int, status: string, body: string)

  /** A fetch outcome as the `(value, err)` pair of the newer fetcher API: 0 on error. */
  function ToReading(o: Outcome<real>): (r: Reading)
    ensures r.err == None <==> o.Value?
    ensures o.Value? ==> r.value == o.value
    ensures o.Failed? ==> r == Reading(0.0, Some(o.error))
  {
    match o
    case Value(v) => Reading(v, None)
    case Failed(e) => Reading(0.0, Some(e))
  }

  /** `strings.Join`: the parts in order, with `sep` between neighbours. */
  function Join(parts: seq<string>, sep: string): string
  {
    if |parts| == 0 then ""
    else if |parts| == 1 then parts[0]
    else parts[0] + sep + Join(parts[1..], sep)
  }

  /** How many bytes UTF-8 spends on one character (section 3 of RFC 3629). */
  function Utf8Width(c: char): (n: nat)
    ensures 1 <= n <= 4
    ensures n == 1 <==> c as int < 0x80
  {
    if c as int < 0x80 then 1
    else if c as int < 0x800 then 2
    else if c as int < 0x1_0000 then 3
    else 4
  }

  /** Go's `len` of a string: its length in UTF-8 bytes. */
  function ByteLength(s: string): (n: nat)
    ensures |s| <= n <= 4 * |s|
    // an ASCII string has one byte per character
    ensures (forall i :: 0 <= i < |s| ==> s[i] as int < 0x80) ==> n == |s|
  {
    if s == [] then 0 else Utf8Width(s[0]) + ByteLength(s[1..])
  }

  /** A two-byte character counts twice. */
  lemma ByteLengthCountsBytes()
    ensures ByteLength("ETH") == 3
    ensures ByteLength("\U{039E}") == 2
  {
    assert "\U{039E}"[1..] == [];
  }

  /** ASCII lower-casing, as the currency codes of the provider map use it. */
  function LowerChar(c: char): char
  {
    if 'A' <= c <= 'Z' then (c as int - 'A' as int + 'a' as int) as char else c
  }

  function Lower(s: string): (r: string)
    ensures |r| == |s|
    ensures forall i :: 0 <= i < |s| ==> r[i] == LowerChar(s[i])
  {
    if s == [] then [] else [LowerChar(s[0])] + Lower(s[1..])
  }
}
