/**
 * The credential record kept in `~/.hax-linkedin-config.json` and the check
 * the poster makes before trusting it. Times are integer milliseconds since
 * the epoch; `expiresIn` is in seconds, as the token endpoint returns it.
 */
module Credentials {
  import opened Wrappers

  /** The record `saveConfig` writes. `refreshToken` is absent when the token reply had none. */
  datatype Config = Config(
    clientId: string,
    clientSecret: string,
    accessToken: string,
    refreshToken: Option<string>,
    personId: string,
    name: string,
    expiresIn: int,
    createdAt: int)

  /** What reading the file yields: nothing, text that is not JSON, or a record. */
  datatype ConfigFile = Missing | Unparseable | Stored(config: Config)

  /** The safety margin taken off the token's lifetime: five minutes. */
  const BufferMs: int := 5 * 60 * 1000

  function ExpiresAt(c: Config): int
  {
    c.createdAt + c.expiresIn * 1000
  }

  /** The expiry test of `loadConfig`: strictly later than the buffered deadline. */
  predicate IsExpired(c: Config, now: int)
  {
    now > ExpiresAt(c) - BufferMs
  }

  /** `loadConfig`: the stored record, unless it is missing, unreadable or expired. */
  function LoadConfig(file: ConfigFile, now: int): (r: Option<Config>)
    ensures r.Some? <==> file.Stored? && now <= file.config.createdAt + file.config.expiresIn * 1000 - 300000
    ensures r.Some? ==> r.value == file.config
  {
    match file
    case Missing => None
    case Unparseable => None
    case Stored(c) => if IsExpired(c, now) then None else Some(c)
  }

  /** The three ways a run ends up without a credential, and the one way it has one. */
  datatype Status = NotConfigured | Corrupt | Expired | Usable

  function Classify(file: ConfigFile, now: int): (s: Status)
    ensures s == NotConfigured <==> file.Missing?
    ensures s == Corrupt <==> file.Unparseable?
    ensures s == Usable <==> LoadConfig(file, now).Some?
  {
    match file
    case Missing => NotConfigured
    case Unparseable => Corrupt
    case Stored(c) => if IsExpired(c, now) then Expired else Usable
  }

  /** The deadline itself still counts as valid; one millisecond later does not. */
  lemma ExpiryBoundary(c: Config)
    ensures LoadConfig(Stored(c), ExpiresAt(c) - BufferMs) == Some(c)
    ensures LoadConfig(Stored(c), ExpiresAt(c) - BufferMs + 1) == None
    ensures LoadConfig(Stored(c), ExpiresAt(c) - BufferMs - 1000) == Some(c)
  {
  }

  /** Validity only ends: a record rejected at some time is rejected at every later time. */
  lemma ExpiryIsFinal(file: ConfigFile, now: int, later: int)
    requires now <= later
    ensures LoadConfig(file, later).Some? ==> LoadConfig(file, now).Some?
    ensures LoadConfig(file, now).None? && file.Stored? ==> Classify(file, later) == Expired
  {
  }

  /** A one-hour token checked a minute after it expired is refused, access token or not. */
  lemma HourTokenMinuteLate(c: Config, t: int)
    requires c.createdAt == t && c.expiresIn == 3600 && c.accessToken != ""
    ensures Classify(Stored(c), t + 3660 * 1000) == Expired
    ensures LoadConfig(Stored(c), t + 3660 * 1000) == None
  {
  }
}
