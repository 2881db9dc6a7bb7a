/** Record shapes of the two collections the analytics engine reads and writes:
    one analytics record per alias (models/Analytics.js) and one short-URL
    record per alias (models/ShortUrl.js). A field the schemas mark as required
    is a field of the datatype, so every value has it. */
module Records {

  datatype Option<T> = None | Some(value: T)

  /** What a request handler answers: a success body, or an HTTP status with its message. */
  datatype Outcome<T> = Ok(value: T) | Fail(status: int, message: string)

  /** JavaScript truthiness of an optional request-body string: absent and "" are falsy. */
  predicate Truthy(o: Option<string>) {
    o.Some? && o.value != ""
  }

  /** Milliseconds in one UTC day. */
  const MsPerDay: int := 86400000

  /** The UTC calendar day, counted from 1970-01-01, of a timestamp in milliseconds.
      Two timestamps have the same ISO 8601 date part exactly when their DayOf agree. */
  function DayOf(ms: int): (day: int)
    ensures day * MsPerDay <= ms < (day + 1) * MsPerDay
  {
    ms / MsPerDay
  }

  /** One entry of `clicksByDate`: the timestamp of the first click counted that day, and the day's count. */
  datatype DateBucket = DateBucket(date: int, clickCount: nat)

  /** One entry of `osType` (name = osName) or of `deviceType` (name = deviceName). */
  datatype Tally = Tally(name: string, uniqueClicks: nat, uniqueUsers: nat)

  /** The analytics record of one alias. `uniqueClicks` is the list of visitor IPs. */
  datatype Analytics = Analytics(
    shortUrlAlias: string,
    totalClicks: nat,
    uniqueClicks: seq<string>,
    clicksByDate: seq<DateBucket>,
    osType: seq<Tally>,
    deviceType: seq<Tally>)

  /** The short-URL record of one alias; `topic` and `customAlias` are optional, the rest
      required. The create handler never fills in `customAlias`. */
  datatype ShortUrl = ShortUrl(
    longUrl: string,
    shortUrl: string,
    customAlias: Option<string>,
    alias: string,
    topic: Option<string>,
    userId: string,
    createdAt: int)
}
