/**
 * Sharing the breaker color between processes through the store: a state key
 * holding the last color and a pub/sub channel announcing changes. Whether a store
 * round trip succeeds is an input.
 */
module CircuitBreakerSync {
  import opened CircuitBreakerTypes
  import opened RedisStore

  const CHANNEL := "circuit_breaker:color"
  const STATE_KEY := "circuit_breaker:current_color"

  /**
   * `getInitialColor` given what GET answered (`read`: None when the call failed,
   * Some(None) for a missing key). The stored text is passed on unchecked; a missing
   * or empty value, or a failed read, gives 'green'.
   */
  function InitialColor(read: Option<Option<string>>): (c: string)
    ensures c != ""
    ensures read.Some? && read.value.Some? && read.value.value != "" ==> c == read.value.value
    ensures read.None? || read.value.None? || read.value.value == "" ==> c == ColorName(Green)
  {
    match read
    case None => ColorName(Green)
    case Some(stored) =>
      if stored.Some? && stored.value != "" then stored.value else ColorName(Green)
  }

  /** The subscriber's handler: only messages on CHANNEL reach the callback. */
  function OnChannelMessage(channel: string, message: string): (delivered: Option<string>)
    ensures delivered.Some? <==> channel == CHANNEL
    ensures delivered.Some? ==> delivered.value == message
  {
    if channel == CHANNEL then Some(message) else None
  }

  /** The colors a subscriber hands to its callback for a log of publications, in order. */
  function DeliveredColors(log: seq<(string, string)>): (colors: seq<string>)
    ensures |colors| <= |log|
    ensures forall m :: m in colors ==> (CHANNEL, m) in log
  {
    if log == [] then []
    else
      var last := log[|log| - 1];
      DeliveredColors(log[..|log| - 1]) +
        (match OnChannelMessage(last.0, last.1) case Some(m) => [m] case None => [])
  }

  /** A publication on CHANNEL is delivered after everything before it. */
  lemma DeliveredAfterPublish(log: seq<(string, string)>, c: Color)
    ensures DeliveredColors(log + [(CHANNEL, ColorName(c))]) == DeliveredColors(log) + [ColorName(c)]
  {
    assert (log + [(CHANNEL, ColorName(c))])[..|log|] == log;
  }

  class SyncService {
    const redis: Redis
    var lastPublishedColor: Option<Color>

    constructor (redis: Redis)
      ensures this.redis == redis && lastPublishedColor == None
    {
      this.redis := redis;
      lastPublishedColor := None;
    }

    /**
     * `publishColorChange`: a color equal to the last one published is not sent
     * again. Otherwise, when the store round trip succeeds (`ok`), the state key
     * and the channel both receive the color and it becomes the last published;
     * on failure nothing changes, so the same color is tried again next time.
     */
    method PublishColorChange(color: Color, ok: bool)
      modifies this`lastPublishedColor, redis`strings, redis`published
      ensures old(lastPublishedColor) == Some(color) || !ok ==>
                && lastPublishedColor == old(lastPublishedColor)
                && redis.strings == old(redis.strings) && redis.published == old(redis.published)
      ensures old(lastPublishedColor) != Some(color) && ok ==>
                && lastPublishedColor == Some(color)
                && redis.strings == old(redis.strings)[STATE_KEY := ColorName(color)]
                && redis.published == old(redis.published) + [(CHANNEL, ColorName(color))]
                && GetInitialColor(true) == ColorName(color)
    {
      if lastPublishedColor == Some(color) {
        return;
      }
      if ok {
        redis.Set(STATE_KEY, ColorName(color));
        redis.Publish(CHANNEL, ColorName(color));
        lastPublishedColor := Some(color);
      }
    }

    /** `getInitialColor` against this store; `ok` says whether the GET succeeded. */
    function GetInitialColor(ok: bool): (c: string)
      reads redis
      ensures !ok || STATE_KEY !in redis.strings || redis.strings[STATE_KEY] == "" ==> c == ColorName(Green)
      ensures ok && STATE_KEY in redis.strings && redis.strings[STATE_KEY] != "" ==> c == redis.strings[STATE_KEY]
    {
      InitialColor(if ok then Some(redis.Get(STATE_KEY)) else None)
    }
  }

  /**
   * Two services sharing a store: once one of them has published `c`, the other
   * starts up with `c`, whatever it had published itself.
   */
  lemma InitialColorAfterPublish(publisher: SyncService, starter: SyncService, c: Color)
    requires publisher.redis == starter.redis
    requires publisher.redis.Get(STATE_KEY) == Some(ColorName(c))
    ensures starter.GetInitialColor(true) == ColorName(c)
  {
  }
}
