/**
  Reading the current solar production from the Solplanet inverter API. The
  HTTP exchange is an abstract input: either the request fails (no response)
  or a response with a status code and a body arrives. A reading is total:
  every failure degrades to 0 kW.
 */
module Solplanet {
  import opened Wrappers

  /** The placeholder value the API key holds until real credentials exist. */
  const PlaceholderKey: string := "ainda_a_esperar"
  /** The response field that carries the current production. */
  const PowerField: string := "current_power_kw"

  /** A response body: a JSON object (its numeric fields) or text that is not JSON. */
  datatype Body = NotJson | JsonObject(fields: map<string, real>)

  /** The outcome of the GET request. */
  datatype Response =
    | RequestFailed                        // connection error, timeout, ...
    | Received(status: int, body: Body)

  /** An unset, empty or placeholder key means the API is not configured yet. */
  predicate KeyMissing(apiKey: Option<string>)
  {
    apiKey == None || apiKey == Some("") || apiKey == Some(PlaceholderKey)
  }

  /** The status codes for which the HTTP client raises an error: 4xx and 5xx. */
  predicate IsErrorStatus(status: int)
  {
    400 <= status < 600
  }

  /**
    When the reading reports the inverter's own value: the key is configured,
    a response arrived with a non-error status, its body is a JSON object and
    that object carries the power field.
   */
  predicate Available(apiKey: Option<string>, response: Response)
  {
    && !KeyMissing(apiKey)
    && response.Received?
    && !IsErrorStatus(response.status)
    && response.body.JsonObject?
    && PowerField in response.body.fields
  }

  /**
    get_solplanet_data: the current solar production in kW. It is the
    inverter's value exactly when that value is available, and 0 in every
    other case (missing key, failed request, error status, unreadable body,
    absent field).
   */
  function SolarReading(apiKey: Option<string>, response: Response): (kw: real)
    ensures Available(apiKey, response) ==> kw == response.body.fields[PowerField]
    ensures !Available(apiKey, response) ==> kw == 0.0
  {
    if KeyMissing(apiKey) then
      0.0
    else
      match response
      case RequestFailed => 0.0
      case Received(status, body) =>
        if IsErrorStatus(status) then
          0.0
        else
          match body
          case NotJson => 0.0
          case JsonObject(fields) =>
            if PowerField in fields then fields[PowerField] else 0.0
  }
}
