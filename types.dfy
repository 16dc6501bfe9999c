/** Values shared by the model: an option type and the shape of the
    upstream forecast payload that the handler inspects. */
module Types {

  datatype Option<+T> = None | Some(value: T)

  /** One entry of a weather element's `time` array. `parameter` is None when
      the entry carries no `parameter` object; otherwise it holds that
      object's `parameterName`. */
  datatype TimeEntry = TimeEntry(startTime: string, endTime: string, parameter: Option<string>)

  /** A named series such as "Wx" or "PoP", aligned by index with its siblings. */
  datatype WeatherElement = WeatherElement(elementName: string, time: seq<TimeEntry>)

  /** One entry of `records.location`; `weatherElement` may be missing. */
  datatype Location = Location(locationName: string, weatherElement: Option<seq<WeatherElement>>)

  /** `response.data.records`: either field may be missing. */
  datatype Records = Records(datasetDescription: Option<string>, location: Option<seq<Location>>)

  /** `response.data`: the body, whose `records` may be missing. */
  datatype Body = Body(records: Option<Records>)

  /** What the outbound request to the forecast service came back with:
      a 2xx response (whose body may be missing), an error response with its
      HTTP status, or a failure without any response (network error, timeout). */
  datatype Upstream =
    | Responded(data: Option<Body>)
    | HttpError(status: int)
    | NoResponse
}
