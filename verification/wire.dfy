/**
 * What the decoders outside the model produce: the untyped JSON view
 * (`map[string]interface{}`), the typed Etherscan responses, and the bundle of
 * foreign decoding functions (`strconv.ParseFloat`, `json.Unmarshal`).
 */
module Wire {
  import opened Base

  /** A JSON member value, as far as a type assertion `.(string)` can tell. */
  datatype JsonValue = JString(text: string) | JOther

  type JsonObject = map<string, JsonValue>

  /** One element of `result` in an account `balancemulti` response. */
  datatype BalanceEntry = BalanceEntry(account: string, balance: string)

  /** `etherscanAccountBalanceResponse`: the header and the per-account balances. */
  datatype BalanceResponse = BalanceResponse(status: string, message: string, result: seq<BalanceEntry>)

  /** `etherscanEthPriceResult`. */
  datatype PriceResult = PriceResult(ethusd: string)

  /** `etherscanEthPriceResponse`; `result == None` is a nil `Result` pointer. */
  datatype PriceResponse = PriceResponse(status: string, message: string, result: Option<PriceResult>)

  /** The zero values the adapters allocate before decoding. */
  const EmptyBalanceResponse := BalanceResponse("", "", [])
  const EmptyPriceResponse := PriceResponse("", "", None)

  /**
   * The foreign decoders. `parseFloat` is `strconv.ParseFloat(s, 64)` with
   * `None` for an error; `decodeObject` is `json.Unmarshal` into a
   * `map[string]interface{}`; the two `unmarshal` functions are
   * `json.Unmarshal` into a typed destination, whose result depends on the
   * body and on what the destination held before.
   */
  datatype Codecs = Codecs(
    parseFloat: string -> Option<real>,
    decodeObject: string -> Outcome<JsonObject>,
    unmarshalBalances: (string, BalanceResponse) -> BalanceResponse,
    unmarshalPrice: (string, PriceResponse) -> PriceResponse)
}
