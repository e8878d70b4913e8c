/** The web middleware around the chat routes: after the inner handler has
    answered, a successful `chat.send` request with a truthy `session_id` is
    counted in today's web statistics. The response passes through as is. */
module TrackChatStatistics {
  import opened Php
  import opened Storage
  import opened Http
  import opened DailyStatistics

  const TrackedRoute := "chat.send"

  /** The request is counted: a 2xx from the send route. */
  predicate Counts(route: string, response: Response) {
    IsSuccessful(response.status) && route == TrackedRoute
  }

  /** handle: the state after the middleware, given the request's route name,
      its input and the response the inner handler produced. */
  function WebTracked(db: Db, route: string, input: Value, response: Response, now: Time): Db {
    var sessionId := Get(input, Named("session_id"));
    if !Counts(route, response) || !ValueTruthy(sessionId) then db
    else Tracked(db, "web", ScalarString(sessionId), now)
  }

  /** Only a counted request with a truthy session id changes anything, and
      then it raises today's web `message_count` by one and its
      `conversation_count` by one exactly when the session's conversation was
      created today; no other row, conversation or log changes. */
  lemma WebTrackingCounts(db: Db, route: string, input: Value, response: Response, now: Time)
    ensures var db1 := WebTracked(db, route, input, response, now);
            var sessionId := Get(input, Named("session_id"));
            var tracked := Counts(route, response) && ValueTruthy(sessionId);
            var key := StatKey(DayOf(now), "web");
            && (!tracked ==> db1 == db)
            && db1.conversations == db.conversations && db1.logs == db.logs
            && db1.Count(DayOf(now), "web", MessageCount)
               == db.Count(DayOf(now), "web", MessageCount) + (if tracked then 1 else 0)
            && db1.Count(DayOf(now), "web", ConversationCount)
               == db.Count(DayOf(now), "web", ConversationCount)
                  + (if tracked && CreatedToday(db, "web", ScalarString(sessionId), now) then 1 else 0)
            && (forall k :: k != key ==> (k in db1.stats <==> k in db.stats))
            && (forall k :: k != key && k in db.stats ==> db1.stats[k] == db.stats[k])
  {
    TrackedEffect(db, "web", ScalarString(Get(input, Named("session_id"))), now);
  }

  lemma WebTrackedPreservesInvariants(db: Db, route: string, input: Value, response: Response, now: Time)
    requires db.Consistent()
    ensures WebTracked(db, route, input, response, now).Consistent()
  {
    TrackedPreservesInvariants(db, "web", ScalarString(Get(input, Named("session_id"))), now);
  }

  /** handle, with `$next($request)` already run and answered `response`. */
  method Handle(db: Store, route: string, input: Value, response: Response, now: Time) returns (r: Response)
    modifies db
    ensures r == response
    ensures db.State() == WebTracked(old(db.State()), route, input, response, now)
  {
    if IsSuccessful(response.status) && route == TrackedRoute {
      TrackStatistics(db, input, now);
    }
    return response;
  }

  method TrackStatistics(db: Store, input: Value, now: Time)
    modifies db
    ensures db.State() == if ValueTruthy(Get(input, Named("session_id")))
                          then Tracked(old(db.State()), "web", ScalarString(Get(input, Named("session_id"))), now)
                          else old(db.State())
  {
    var sessionId := Get(input, Named("session_id"));
    if !ValueTruthy(sessionId) {
      return;
    }
    Track(db, "web", ScalarString(sessionId), now);
  }
}
