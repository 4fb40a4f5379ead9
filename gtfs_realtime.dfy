/** Next-bus notifications over a decoded GTFS Realtime trip-update feed
    (FeedMessage -> FeedEntity.trip_update -> TripUpdate.stop_time_update[]
    .arrival.time). The feed, the route/stop name tables and the current Unix
    time are inputs; arrival times are Unix seconds. */
module BusDynamic {
  import opened Text

  /** Protobuf message shapes, as far as the computation reads them. Unset
      strings read as "" and an unset time reads as 0, as the generated
      getters return; the optional sub-messages are Options. */
  datatype StopTimeEvent = StopTimeEvent(time: int)
  datatype StopTimeUpdate = StopTimeUpdate(stopId: string, arrival: Option<StopTimeEvent>)
  datatype TripDescriptor = TripDescriptor(tripId: string, routeId: string)
  datatype TripUpdate = TripUpdate(trip: Option<TripDescriptor>, stopTimeUpdates: seq<StopTimeUpdate>)
  datatype FeedEntity = FeedEntity(tripUpdate: Option<TripUpdate>)

  /** Reading and decoding the stored feed either yields its entities or fails. */
  datatype Decoded = Entities(feed: seq<FeedEntity>) | ReadFailed | ParseFailed

  const ReadErrorMessage := "unable to read file"
  const ParseErrorMessage := "unable to parse protobuf"

  datatype Notification = Notification(isValid: bool, routeNumber: string, stopName: string, nextArrivalTime: int)
  datatype Subscription = Subscription(topic: string, routeId: string, stopId: string)

  /** The zero Notification: no upcoming trip. */
  const NoTrip := Notification(false, "", "", 0)

  /** Lookup key of a (route, stop) pair: plain concatenation. */
  function Key(routeId: string, stopId: string): string {
    routeId + stopId
  }

  /** Go map read: a missing id reads as the empty string. */
  function NameOf(names: map<string, string>, id: string): string {
    if id in names then names[id] else ""
  }

  // ---------------------------------------------------------------- GetAll

  /** One arrival seen in the feed, under its route+stop key. */
  datatype Sighting = Sighting(key: string, arrival: int)

  /** The arrivals of one trip's stop-time updates, in order; updates
      without an arrival are skipped. */
  function UpdateSightings(routeId: string, updates: seq<StopTimeUpdate>): seq<Sighting>
    decreases |updates|
  {
    if updates == [] then []
    else
      var u := updates[|updates| - 1];
      UpdateSightings(routeId, updates[..|updates| - 1])
        + (if u.arrival.Some? then [Sighting(Key(routeId, u.stopId), u.arrival.value.time)] else [])
  }

  /** An entity without a trip update, or whose trip update has no trip, contributes nothing. */
  function EntitySightings(e: FeedEntity): seq<Sighting> {
    if e.tripUpdate.Some? && e.tripUpdate.value.trip.Some? then
      UpdateSightings(e.tripUpdate.value.trip.value.routeId, e.tripUpdate.value.stopTimeUpdates)
    else []
  }

  /** Every arrival of the feed, entity by entity. */
  function Sightings(feed: seq<FeedEntity>): seq<Sighting>
    decreases |feed|
  {
    if feed == [] then [] else Sightings(feed[..|feed| - 1]) + EntitySightings(feed[|feed| - 1])
  }

  /** The earliest arrival per key, folding the sightings in order; a later
      sighting replaces the stored one only when strictly earlier. */
  function EarliestArrivals(seen: seq<Sighting>): map<string, int>
    decreases |seen|
  {
    if seen == [] then map[]
    else
      var m := EarliestArrivals(seen[..|seen| - 1]);
      var s := seen[|seen| - 1];
      if s.key in m && !(m[s.key] > s.arrival) then m else m[s.key := s.arrival]
  }

  /** The keys of GetAll's map are exactly the keys seen, and no sighting of
      a key is earlier than its stored time. */
  lemma {:induction false} EarliestArrivalsBound(seen: seq<Sighting>)
    ensures forall k :: k in EarliestArrivals(seen) <==> exists i :: 0 <= i < |seen| && seen[i].key == k
    ensures forall i :: 0 <= i < |seen| ==>
      seen[i].key in EarliestArrivals(seen) && EarliestArrivals(seen)[seen[i].key] <= seen[i].arrival
    decreases |seen|
  {
    if seen != [] {
      var prefix := seen[..|seen| - 1];
      EarliestArrivalsBound(prefix);
      assert forall i :: 0 <= i < |prefix| ==> seen[i] == prefix[i];
    }
  }

  /** Each stored time is an arrival actually seen under that key. */
  lemma {:induction false} EarliestArrivalsAttained(seen: seq<Sighting>)
    ensures forall k :: k in EarliestArrivals(seen) ==>
      exists i :: 0 <= i < |seen| && seen[i] == Sighting(k, EarliestArrivals(seen)[k])
    decreases |seen|
  {
    if seen != [] {
      var prefix := seen[..|seen| - 1];
      var m := EarliestArrivals(prefix);
      var s := seen[|seen| - 1];
      EarliestArrivalsAttained(prefix);
      var r := EarliestArrivals(seen);
      forall k | k in r
        ensures exists i :: 0 <= i < |seen| && seen[i] == Sighting(k, r[k])
      {
        if k == s.key && r[k] == s.arrival {
          assert seen[|seen| - 1] == Sighting(k, r[k]);
        } else {
          assert k in m && r[k] == m[k];
          var i :| 0 <= i < |prefix| && prefix[i] == Sighting(k, m[k]);
          assert seen[i] == prefix[i];
        }
      }
    }
  }

  /** Where a sighting can come from: entity e has a trip update with a
      trip, and its stop-time update u has an arrival, giving s. */
  predicate SightedAt(feed: seq<FeedEntity>, e: int, u: int, s: Sighting) {
    0 <= e < |feed| && feed[e].tripUpdate.Some? && feed[e].tripUpdate.value.trip.Some?
    && 0 <= u < |feed[e].tripUpdate.value.stopTimeUpdates|
    && var update := feed[e].tripUpdate.value.stopTimeUpdates[u];
       update.arrival.Some?
       && s == Sighting(Key(feed[e].tripUpdate.value.trip.value.routeId, update.stopId), update.arrival.value.time)
  }

  lemma {:induction false} UpdateSightingsFrom(routeId: string, updates: seq<StopTimeUpdate>, i: int)
    requires 0 <= i < |UpdateSightings(routeId, updates)|
    ensures exists u :: (0 <= u < |updates| && updates[u].arrival.Some?
      && UpdateSightings(routeId, updates)[i] == Sighting(Key(routeId, updates[u].stopId), updates[u].arrival.value.time))
    decreases |updates|
  {
    var prefix := updates[..|updates| - 1];
    var last := updates[|updates| - 1];
    if i < |UpdateSightings(routeId, prefix)| {
      UpdateSightingsFrom(routeId, prefix, i);
      var u :| 0 <= u < |prefix| && prefix[u].arrival.Some?
        && UpdateSightings(routeId, prefix)[i] == Sighting(Key(routeId, prefix[u].stopId), prefix[u].arrival.value.time);
      assert updates[u] == prefix[u];
    } else {
      assert updates[|updates| - 1] == last;
    }
  }

  /** GetAll only records arrivals it actually met: every sighting comes
      from an entity with a trip update and a trip, and from a stop-time
      update with an arrival. */
  lemma {:induction false} SightingsComeFromFeed(feed: seq<FeedEntity>, i: int)
    requires 0 <= i < |Sightings(feed)|
    ensures exists e, u :: SightedAt(feed, e, u, Sightings(feed)[i])
    decreases |feed|
  {
    var prefix := feed[..|feed| - 1];
    var n := |Sightings(prefix)|;
    if i < n {
      SightingsComeFromFeed(prefix, i);
      var e, u :| SightedAt(prefix, e, u, Sightings(prefix)[i]);
      assert feed[e] == prefix[e];
      assert SightedAt(feed, e, u, Sightings(feed)[i]);
    } else {
      var e := |feed| - 1;
      var tu := feed[e].tripUpdate.value;
      UpdateSightingsFrom(tu.trip.value.routeId, tu.stopTimeUpdates, i - n);
      var u :| 0 <= u < |tu.stopTimeUpdates| && tu.stopTimeUpdates[u].arrival.Some?
        && UpdateSightings(tu.trip.value.routeId, tu.stopTimeUpdates)[i - n]
           == Sighting(Key(tu.trip.value.routeId, tu.stopTimeUpdates[u].stopId), tu.stopTimeUpdates[u].arrival.value.time);
      assert SightedAt(feed, e, u, Sightings(feed)[i]);
    }
  }

  lemma {:induction false} UpdateSightingsHas(routeId: string, updates: seq<StopTimeUpdate>, u: int)
    requires 0 <= u < |updates| && updates[u].arrival.Some?
    ensures exists i :: (0 <= i < |UpdateSightings(routeId, updates)|
      && UpdateSightings(routeId, updates)[i] == Sighting(Key(routeId, updates[u].stopId), updates[u].arrival.value.time))
    decreases |updates|
  {
    var prefix := updates[..|updates| - 1];
    var r := UpdateSightings(routeId, updates);
    var s := Sighting(Key(routeId, updates[u].stopId), updates[u].arrival.value.time);
    if u < |updates| - 1 {
      assert prefix[u] == updates[u];
      UpdateSightingsHas(routeId, prefix, u);
      var i :| 0 <= i < |UpdateSightings(routeId, prefix)| && UpdateSightings(routeId, prefix)[i] == s;
      assert r[i] == s;
    } else {
      assert r[|r| - 1] == s;
    }
  }

  /** GetAll misses no arrival: every stop-time update with an arrival, in an
      entity with a trip update and a trip, is a sighting. */
  lemma {:induction false} FeedArrivalsAreSighted(feed: seq<FeedEntity>, e: int, u: int, s: Sighting)
    requires SightedAt(feed, e, u, s)
    ensures exists i :: 0 <= i < |Sightings(feed)| && Sightings(feed)[i] == s
    decreases |feed|
  {
    var prefix := feed[..|feed| - 1];
    var r := Sightings(feed);
    if e < |feed| - 1 {
      assert prefix[e] == feed[e];
      assert SightedAt(prefix, e, u, s);
      FeedArrivalsAreSighted(prefix, e, u, s);
      var i :| 0 <= i < |Sightings(prefix)| && Sightings(prefix)[i] == s;
      assert r[i] == s;
    } else {
      var tu := feed[e].tripUpdate.value;
      UpdateSightingsHas(tu.trip.value.routeId, tu.stopTimeUpdates, u);
      var k :| 0 <= k < |EntitySightings(feed[e])| && EntitySightings(feed[e])[k] == s;
      assert r[|Sightings(prefix)| + k] == s;
    }
  }

  /** GetAll's map holds, for every arrival of the feed, its key, with a
      time no later than that arrival. */
  lemma GetAllBelowEveryArrival(feed: seq<FeedEntity>, e: int, u: int, s: Sighting)
    requires SightedAt(feed, e, u, s)
    ensures s.key in EarliestArrivals(Sightings(feed))
    ensures EarliestArrivals(Sightings(feed))[s.key] <= s.arrival
  {
    FeedArrivalsAreSighted(feed, e, u, s);
    EarliestArrivalsBound(Sightings(feed));
  }

  lemma SightingsStep(feed: seq<FeedEntity>, e: int)
    requires 0 <= e < |feed|
    ensures Sightings(feed[..e + 1]) == Sightings(feed[..e]) + EntitySightings(feed[e])
  {
    assert feed[..e + 1][..e] == feed[..e];
  }

  lemma UpdateSightingsStep(routeId: string, updates: seq<StopTimeUpdate>, j: int)
    requires 0 <= j < |updates|
    ensures UpdateSightings(routeId, updates[..j + 1]) == UpdateSightings(routeId, updates[..j])
      + (if updates[j].arrival.Some? then [Sighting(Key(routeId, updates[j].stopId), updates[j].arrival.value.time)] else [])
  {
    assert updates[..j + 1][..j] == updates[..j];
  }

  lemma EarliestArrivalsStep(seen: seq<Sighting>, s: Sighting)
    ensures EarliestArrivals(seen + [s]) ==
      var m := EarliestArrivals(seen);
      if s.key in m && !(m[s.key] > s.arrival) then m else m[s.key := s.arrival]
  {
    assert (seen + [s])[..|seen|] == seen;
  }

  /** GetAll's inner loop: fold one trip's stop-time updates into the map. */
  method AddTripArrivals(start: map<string, int>, ghost seen: seq<Sighting>, routeId: string,
                         updates: seq<StopTimeUpdate>) returns (res: map<string, int>)
    requires start == EarliestArrivals(seen)
    ensures res == EarliestArrivals(seen + UpdateSightings(routeId, updates))
  {
    res := start;
    assert seen + UpdateSightings(routeId, updates[..0]) == seen;
    var j := 0;
    while j < |updates|
      invariant 0 <= j <= |updates|
      invariant res == EarliestArrivals(seen + UpdateSightings(routeId, updates[..j]))
    {
      UpdateSightingsStep(routeId, updates, j);
      ghost var sofar := seen + UpdateSightings(routeId, updates[..j]);
      var update := updates[j];
      if update.arrival.Some? {
        var key := Key(routeId, update.stopId);
        var time := update.arrival.value.time;
        assert seen + UpdateSightings(routeId, updates[..j + 1]) == sofar + [Sighting(key, time)];
        EarliestArrivalsStep(sofar, Sighting(key, time));
        if key in res {
          if res[key] > time {
            res := res[key := time];
          }
        } else {
          res := res[key := time];
        }
      } else {
        assert seen + UpdateSightings(routeId, updates[..j + 1]) == sofar;
      }
      j := j + 1;
    }
    assert updates[..|updates|] == updates;
  }

  /** GetAll: the earliest arrival per route+stop key over the whole feed. */
  method GetAll(feed: seq<FeedEntity>) returns (res: map<string, int>)
    ensures res == EarliestArrivals(Sightings(feed))
  {
    res := map[];
    var e := 0;
    while e < |feed|
      invariant 0 <= e <= |feed|
      invariant res == EarliestArrivals(Sightings(feed[..e]))
    {
      SightingsStep(feed, e);
      var tripUpdate := feed[e].tripUpdate;
      if tripUpdate.None? {
        assert Sightings(feed[..e + 1]) == Sightings(feed[..e]);
        e := e + 1;
        continue;
      }
      var trip := tripUpdate.value.trip;
      if trip.None? {
        assert Sightings(feed[..e + 1]) == Sightings(feed[..e]);
        e := e + 1;
        continue;
      }
      res := AddTripArrivals(res, Sightings(feed[..e]), trip.value.routeId, tripUpdate.value.stopTimeUpdates);
      e := e + 1;
    }
    assert feed[..|feed|] == feed;
  }

  // ---------------------------------------------------- one entry per topic

  /** Results keyed by topic, written in order: a later entry for a topic
      overwrites an earlier one. */
  function ByTopic(entries: seq<(string, Notification)>): map<string, Notification>
    decreases |entries|
  {
    if entries == [] then map[]
    else ByTopic(entries[..|entries| - 1])[entries[|entries| - 1].0 := entries[|entries| - 1].1]
  }

  /** There is one result per topic written, and no other. */
  lemma {:induction false} ByTopicKeys(entries: seq<(string, Notification)>)
    ensures forall t :: t in ByTopic(entries) <==> exists i :: 0 <= i < |entries| && entries[i].0 == t
    decreases |entries|
  {
    if entries != [] {
      var prefix := entries[..|entries| - 1];
      ByTopicKeys(prefix);
      assert forall i :: 0 <= i < |prefix| ==> entries[i] == prefix[i];
    }
  }

  lemma ByTopicStep(entries: seq<(string, Notification)>, x: (string, Notification))
    ensures ByTopic(entries + [x]) == ByTopic(entries)[x.0 := x.1]
  {
    assert (entries + [x])[..|entries|] == entries;
  }

  /** The last entry written for a topic is the one kept. */
  lemma {:induction false} LastEntryPerTopicWins(entries: seq<(string, Notification)>, i: int)
    requires 0 <= i < |entries|
    requires forall j :: i < j < |entries| ==> entries[j].0 != entries[i].0
    ensures entries[i].0 in ByTopic(entries) && ByTopic(entries)[entries[i].0] == entries[i].1
    decreases |entries|
  {
    if i < |entries| - 1 {
      var prefix := entries[..|entries| - 1];
      assert prefix[i] == entries[i];
      LastEntryPerTopicWins(prefix, i);
    }
  }

  // ----------------------------------------------------- GetNotificationsV2

  /** The V2 notification of one subscription: valid exactly when the
      precomputed map has the route+stop key and that arrival is not in the past. */
  function NotificationFor(sub: Subscription, arrivals: map<string, int>,
                           routeNames: map<string, string>, stopNames: map<string, string>, now: int)
    : (n: Notification)
  {
    var key := Key(sub.routeId, sub.stopId);
    if key in arrivals && arrivals[key] - now >= 0 then
      Notification(true, NameOf(routeNames, sub.routeId), NameOf(stopNames, sub.stopId), arrivals[key] - now)
    else NoTrip
  }

  /** The (topic, notification) entries V2 writes, one per subscription in order. */
  function EntriesV2(subs: seq<Subscription>, arrivals: map<string, int>,
                     routeNames: map<string, string>, stopNames: map<string, string>, now: int)
    : (r: seq<(string, Notification)>)
    ensures |r| == |subs|
    decreases |subs|
  {
    if subs == [] then []
    else
      EntriesV2(subs[..|subs| - 1], arrivals, routeNames, stopNames, now)
        + [(subs[|subs| - 1].topic, NotificationFor(subs[|subs| - 1], arrivals, routeNames, stopNames, now))]
  }

  lemma {:induction false} EntriesV2At(subs: seq<Subscription>, arrivals: map<string, int>,
                                       routeNames: map<string, string>, stopNames: map<string, string>, now: int, i: int)
    requires 0 <= i < |subs|
    ensures EntriesV2(subs, arrivals, routeNames, stopNames, now)[i]
         == (subs[i].topic, NotificationFor(subs[i], arrivals, routeNames, stopNames, now))
    decreases |subs|
  {
    if i < |subs| - 1 {
      var prefix := subs[..|subs| - 1];
      EntriesV2At(prefix, arrivals, routeNames, stopNames, now, i);
      assert prefix[i] == subs[i];
    }
  }

  lemma EntriesV2Step(subs: seq<Subscription>, arrivals: map<string, int>,
                      routeNames: map<string, string>, stopNames: map<string, string>, now: int, i: int)
    requires 0 <= i < |subs|
    ensures EntriesV2(subs[..i + 1], arrivals, routeNames, stopNames, now)
         == EntriesV2(subs[..i], arrivals, routeNames, stopNames, now)
            + [(subs[i].topic, NotificationFor(subs[i], arrivals, routeNames, stopNames, now))]
  {
    assert subs[..i + 1][..i] == subs[..i];
  }

  /** The body of V2's loop for one subscription. */
  method SubscriptionV2(sub: Subscription, arrivals: map<string, int>,
                        routeNames: map<string, string>, stopNames: map<string, string>, now: int)
    returns (res: Notification)
    ensures var key := Key(sub.routeId, sub.stopId);
      && (res.isValid <==> key in arrivals && arrivals[key] >= now)
      && (res.isValid ==> res == Notification(true, NameOf(routeNames, sub.routeId),
                                              NameOf(stopNames, sub.stopId), arrivals[key] - now))
      && (!res.isValid ==> res == NoTrip)
    ensures res == NotificationFor(sub, arrivals, routeNames, stopNames, now)
  {
    res := NoTrip;
    var key := Key(sub.routeId, sub.stopId);
    if key in arrivals {
      var nextArrivalTime := arrivals[key] - now;
      if nextArrivalTime >= 0 {
        res := Notification(true, NameOf(routeNames, sub.routeId), NameOf(stopNames, sub.stopId), nextArrivalTime);
      }
    }
  }

  /** GetNotificationsV2 over the map GetAll built; its error result is always nil. */
  method GetNotificationsV2(subs: seq<Subscription>, arrivals: map<string, int>,
                            routeNames: map<string, string>, stopNames: map<string, string>, now: int)
    returns (results: map<string, Notification>, err: Option<string>)
    ensures results == ByTopic(EntriesV2(subs, arrivals, routeNames, stopNames, now))
    ensures err == None
  {
    results := map[];
    var i := 0;
    while i < |subs|
      invariant 0 <= i <= |subs|
      invariant results == ByTopic(EntriesV2(subs[..i], arrivals, routeNames, stopNames, now))
    {
      var sub := subs[i];
      var res := SubscriptionV2(sub, arrivals, routeNames, stopNames, now);
      EntriesV2Step(subs, arrivals, routeNames, stopNames, now, i);
      ByTopicStep(EntriesV2(subs[..i], arrivals, routeNames, stopNames, now), (sub.topic, res));
      results := results[sub.topic := res];
      i := i + 1;
    }
    assert subs[..|subs|] == subs;
    err := None;
  }

  /** What a V2 entry says: for each topic, the last subscription with that
      topic decides; that entry is valid exactly when its key is in the map
      with a non-negative wait, and then carries the wait and the two names. */
  lemma V2EntryForTopic(subs: seq<Subscription>, arrivals: map<string, int>,
                        routeNames: map<string, string>, stopNames: map<string, string>, now: int, i: int)
    requires 0 <= i < |subs|
    requires forall j :: i < j < |subs| ==> subs[j].topic != subs[i].topic
    ensures subs[i].topic in ByTopic(EntriesV2(subs, arrivals, routeNames, stopNames, now))
    ensures var n := ByTopic(EntriesV2(subs, arrivals, routeNames, stopNames, now))[subs[i].topic];
      var key := Key(subs[i].routeId, subs[i].stopId);
      (n.isValid <==> key in arrivals && arrivals[key] - now >= 0)
      && (n.isValid ==> n.nextArrivalTime == arrivals[key] - now >= 0
                        && n.routeNumber == NameOf(routeNames, subs[i].routeId)
                        && n.stopName == NameOf(stopNames, subs[i].stopId))
      && (!n.isValid ==> n == NoTrip)
  {
    var entries := EntriesV2(subs, arrivals, routeNames, stopNames, now);
    EntriesV2At(subs, arrivals, routeNames, stopNames, now, i);
    forall j | i < j < |subs|
      ensures entries[j].0 != entries[i].0
    {
      EntriesV2At(subs, arrivals, routeNames, stopNames, now, j);
    }
    LastEntryPerTopicWins(entries, i);
  }

  /** Distinct (route, stop) pairs whose concatenations agree share one map
      entry: route "1" at stop "23" reads the arrival of route "12" at stop "3". */
  lemma KeysCollide(arrivals: map<string, int>, routeNames: map<string, string>,
                    stopNames: map<string, string>, now: int)
    requires "123" in arrivals && arrivals["123"] >= now
    ensures NotificationFor(Subscription("a", "1", "23"), arrivals, routeNames, stopNames, now).nextArrivalTime
         == NotificationFor(Subscription("b", "12", "3"), arrivals, routeNames, stopNames, now).nextArrivalTime
         == arrivals["123"] - now
  {
    assert Key("1", "23") == "123";
    assert Key("12", "3") == "123";
  }

  // ------------------------------------------------------- GetNotifications

  /** A trip that serves the subscribed stop, with its arrival there. */
  datatype Candidate = Candidate(tripId: string, arrival: int)

  /** The index of the first stop-time update at the given stop. */
  function FirstAtStop(updates: seq<StopTimeUpdate>, stopId: string): (r: Option<nat>)
    ensures r.Some? ==> r.value < |updates| && updates[r.value].stopId == stopId
                        && forall j :: 0 <= j < r.value ==> updates[j].stopId != stopId
    ensures r.None? ==> forall j :: 0 <= j < |updates| ==> updates[j].stopId != stopId
    decreases |updates|
  {
    if updates == [] then None
    else if updates[0].stopId == stopId then Some(0)
    else match FirstAtStop(updates[1..], stopId)
         case None => None
         case Some(i) => Some(i + 1)
  }

  /** A trip's candidate: only the first update at the stop is looked at,
      and it yields a candidate only when it has an arrival. */
  function TripCandidate(e: FeedEntity, sub: Subscription): Option<Candidate> {
    if e.tripUpdate.None? || e.tripUpdate.value.trip.None?
       || e.tripUpdate.value.trip.value.routeId != sub.routeId then None
    else
      var updates := e.tripUpdate.value.stopTimeUpdates;
      match FirstAtStop(updates, sub.stopId)
      case None => None
      case Some(i) =>
        if updates[i].arrival.Some? then
          Some(Candidate(e.tripUpdate.value.trip.value.tripId, updates[i].arrival.value.time))
        else None
  }

  /** The candidates of the feed for one subscription: at most one per entity, in feed order. */
  function Candidates(feed: seq<FeedEntity>, sub: Subscription): (r: seq<Candidate>)
    ensures |r| <= |feed|
    decreases |feed|
  {
    if feed == [] then []
    else
      Candidates(feed[..|feed| - 1], sub)
        + match TripCandidate(feed[|feed| - 1], sub)
          case None => []
          case Some(c) => [c]
  }

  /** The earliest-trip scan as written: it starts from the zero candidate
      and takes the next candidate whenever the current trip id is empty or
      the next arrival is strictly earlier. */
  function Earliest(cands: seq<Candidate>): Candidate
    decreases |cands|
  {
    if cands == [] then Candidate("", 0)
    else
      var e := Earliest(cands[..|cands| - 1]);
      var c := cands[|cands| - 1];
      if e.tripId == "" || c.arrival < e.arrival then c else e
  }

  /** With every trip id non-empty, the scan finds an earliest candidate. */
  lemma {:induction false} EarliestIsMinimum(cands: seq<Candidate>)
    requires |cands| > 0
    requires forall i :: 0 <= i < |cands| ==> cands[i].tripId != ""
    ensures exists i :: 0 <= i < |cands| && cands[i] == Earliest(cands)
    ensures forall i :: 0 <= i < |cands| ==> Earliest(cands).arrival <= cands[i].arrival
    decreases |cands|
  {
    var prefix := cands[..|cands| - 1];
    if prefix == [] {
      assert Earliest(cands) == cands[0];
    } else {
      assert forall i :: 0 <= i < |prefix| ==> prefix[i] == cands[i];
      EarliestIsMinimum(prefix);
      var k :| 0 <= k < |prefix| && prefix[k] == Earliest(prefix);
      assert Earliest(prefix).tripId != "";
      var c := cands[|cands| - 1];
      if c.arrival < Earliest(prefix).arrival {
        assert Earliest(cands) == c;
      } else {
        assert Earliest(cands) == Earliest(prefix) == cands[k];
      }
    }
  }

  /** The empty trip id doubles as "nothing chosen yet": a candidate with an
      empty trip id is replaced by the next one even when that one is later. */
  lemma EmptyTripIdIsReplaced()
    ensures Earliest([Candidate("", 3), Candidate("t", 9)]).arrival == 9
  {
    var cands := [Candidate("", 3), Candidate("t", 9)];
    assert cands[..1] == [Candidate("", 3)];
    assert [Candidate("", 3)][..0] == [];
    assert Earliest(cands[..1]) == Candidate("", 3);
  }

  /** The notification for a subscription's candidates: valid exactly when
      there is a candidate and the chosen arrival is not in the past. */
  function EarliestNotification(cands: seq<Candidate>, sub: Subscription,
                                routeNames: map<string, string>, stopNames: map<string, string>, now: int)
    : Notification
  {
    if |cands| > 0 && Earliest(cands).arrival - now >= 0 then
      Notification(true, NameOf(routeNames, sub.routeId), NameOf(stopNames, sub.stopId), Earliest(cands).arrival - now)
    else NoTrip
  }

  /** The GetNotifications notification of one subscription. */
  function NotificationByTrip(feed: seq<FeedEntity>, sub: Subscription,
                              routeNames: map<string, string>, stopNames: map<string, string>, now: int)
    : Notification
  {
    EarliestNotification(Candidates(feed, sub), sub, routeNames, stopNames, now)
  }

  function EntriesByTrip(subs: seq<Subscription>, feed: seq<FeedEntity>,
                         routeNames: map<string, string>, stopNames: map<string, string>, now: int)
    : (r: seq<(string, Notification)>)
    ensures |r| == |subs|
    decreases |subs|
  {
    if subs == [] then []
    else
      EntriesByTrip(subs[..|subs| - 1], feed, routeNames, stopNames, now)
        + [(subs[|subs| - 1].topic, NotificationByTrip(feed, subs[|subs| - 1], routeNames, stopNames, now))]
  }

  lemma EntriesByTripStep(subs: seq<Subscription>, feed: seq<FeedEntity>,
                          routeNames: map<string, string>, stopNames: map<string, string>, now: int, i: int)
    requires 0 <= i < |subs|
    ensures EntriesByTrip(subs[..i + 1], feed, routeNames, stopNames, now)
         == EntriesByTrip(subs[..i], feed, routeNames, stopNames, now)
            + [(subs[i].topic, NotificationByTrip(feed, subs[i], routeNames, stopNames, now))]
  {
    assert subs[..i + 1][..i] == subs[..i];
  }

  lemma CandidatesStep(feed: seq<FeedEntity>, sub: Subscription, e: int)
    requires 0 <= e < |feed|
    ensures Candidates(feed[..e + 1], sub) == Candidates(feed[..e], sub)
      + match TripCandidate(feed[e], sub)
        case None => []
        case Some(c) => [c]
  {
    assert feed[..e + 1][..e] == feed[..e];
  }

  lemma EarliestStep(cands: seq<Candidate>, t: int)
    requires 0 <= t < |cands|
    ensures Earliest(cands[..t + 1]) ==
      var e := Earliest(cands[..t]);
      if e.tripId == "" || cands[t].arrival < e.arrival then cands[t] else e
  {
    assert cands[..t + 1][..t] == cands[..t];
  }

  /** One entity of GetNotifications' scan: skip it unless its trip is on the
      subscribed route, then look through its stop-time updates up to the
      first one at the subscribed stop. */
  method EntityCandidate(entity: FeedEntity, sub: Subscription) returns (c: Option<Candidate>)
    ensures c == TripCandidate(entity, sub)
  {
    c := None;
    var tripUpdate := entity.tripUpdate;
    if tripUpdate.None? {
      return;
    }
    var trip := tripUpdate.value.trip;
    if trip.None? || trip.value.routeId != sub.routeId {
      return;
    }
    var updates := tripUpdate.value.stopTimeUpdates;
    var k := 0;
    while k < |updates|
      invariant 0 <= k <= |updates|
      invariant forall j :: 0 <= j < k ==> updates[j].stopId != sub.stopId
      invariant c == None
    {
      if updates[k].stopId == sub.stopId {
        assert FirstAtStop(updates, sub.stopId) == Some(k);
        var arrival := updates[k].arrival;
        if arrival.Some? {
          c := Some(Candidate(trip.value.tripId, arrival.value.time));
        }
        return;
      }
      k := k + 1;
    }
  }

  /** The candidates GetNotifications collects for one subscription, entity by entity. */
  method MatchingTrips(feed: seq<FeedEntity>, sub: Subscription) returns (matchingTrips: seq<Candidate>)
    ensures matchingTrips == Candidates(feed, sub)
  {
    matchingTrips := [];
    var e := 0;
    while e < |feed|
      invariant 0 <= e <= |feed|
      invariant matchingTrips == Candidates(feed[..e], sub)
    {
      CandidatesStep(feed, sub, e);
      var c := EntityCandidate(feed[e], sub);
      if c.Some? {
        matchingTrips := matchingTrips + [c.value];
      }
      e := e + 1;
    }
    assert feed[..|feed|] == feed;
  }

  /** The earliest-trip scan of GetNotifications over the collected candidates. */
  method EarliestTrip(matchingTrips: seq<Candidate>) returns (earliestTrip: Candidate)
    ensures earliestTrip == Earliest(matchingTrips)
  {
    earliestTrip := Candidate("", 0);
    var t := 0;
    while t < |matchingTrips|
      invariant 0 <= t <= |matchingTrips|
      invariant earliestTrip == Earliest(matchingTrips[..t])
    {
      EarliestStep(matchingTrips, t);
      var trip := matchingTrips[t];
      if earliestTrip.tripId == "" || trip.arrival < earliestTrip.arrival {
        earliestTrip := trip;
      }
      t := t + 1;
    }
    assert matchingTrips[..|matchingTrips|] == matchingTrips;
  }

  /** The body of GetNotifications' loop for one subscription. */
  method SubscriptionByTrip(feed: seq<FeedEntity>, sub: Subscription,
                            routeNames: map<string, string>, stopNames: map<string, string>, now: int)
    returns (res: Notification)
    ensures res == NotificationByTrip(feed, sub, routeNames, stopNames, now)
  {
    res := NoTrip;
    var matchingTrips := MatchingTrips(feed, sub);
    if |matchingTrips| > 0 {
      var earliestTrip := EarliestTrip(matchingTrips);
      var nextArrivalTime := earliestTrip.arrival - now;
      if nextArrivalTime >= 0 {
        res := Notification(true, NameOf(routeNames, sub.routeId), NameOf(stopNames, sub.stopId), nextArrivalTime);
      }
    }
  }

  /** GetNotifications: the older per-trip search over the stored feed. A
      feed that cannot be read or decoded gives an error and no results. */
  method GetNotifications(subs: seq<Subscription>, decoded: Decoded,
                          routeNames: map<string, string>, stopNames: map<string, string>, now: int)
    returns (results: map<string, Notification>, err: Option<string>)
    ensures decoded.ReadFailed? ==> results == map[] && err == Some(ReadErrorMessage)
    ensures decoded.ParseFailed? ==> results == map[] && err == Some(ParseErrorMessage)
    ensures decoded.Entities? ==>
      results == ByTopic(EntriesByTrip(subs, decoded.feed, routeNames, stopNames, now)) && err == None
  {
    results := map[];
    if decoded.ReadFailed? {
      return map[], Some(ReadErrorMessage);
    }
    if decoded.ParseFailed? {
      return map[], Some(ParseErrorMessage);
    }
    var feed := decoded.feed;
    var s := 0;
    while s < |subs|
      invariant 0 <= s <= |subs|
      invariant results == ByTopic(EntriesByTrip(subs[..s], feed, routeNames, stopNames, now))
    {
      var sub := subs[s];
      var res := SubscriptionByTrip(feed, sub, routeNames, stopNames, now);
      EntriesByTripStep(subs, feed, routeNames, stopNames, now, s);
      ByTopicStep(EntriesByTrip(subs[..s], feed, routeNames, stopNames, now), (sub.topic, res));
      results := results[sub.topic := res];
      s := s + 1;
    }
    assert subs[..|subs|] == subs;
    err := None;
  }

  /** Only the first update at the subscribed stop counts: when it has no
      arrival the trip gives no candidate, even if a later update at the
      same stop has one. */
  lemma MissingArrivalHidesLaterMatch(e: FeedEntity, sub: Subscription, i: int, j: int)
    requires e.tripUpdate.Some? && e.tripUpdate.value.trip.Some?
    requires e.tripUpdate.value.trip.value.routeId == sub.routeId
    requires 0 <= i < j < |e.tripUpdate.value.stopTimeUpdates|
    requires forall k :: 0 <= k < i ==> e.tripUpdate.value.stopTimeUpdates[k].stopId != sub.stopId
    requires e.tripUpdate.value.stopTimeUpdates[i] == StopTimeUpdate(sub.stopId, None)
    requires e.tripUpdate.value.stopTimeUpdates[j].stopId == sub.stopId
    requires e.tripUpdate.value.stopTimeUpdates[j].arrival.Some?
    ensures TripCandidate(e, sub) == None
  {
    var updates := e.tripUpdate.value.stopTimeUpdates;
    assert FirstAtStop(updates, sub.stopId) == Some(i);
  }

  /** Candidate i arrives no later than any other. */
  predicate IsEarliest(cands: seq<Candidate>, i: int) {
    0 <= i < |cands| && forall j :: 0 <= j < |cands| ==> cands[i].arrival <= cands[j].arrival
  }

  /** With every trip id non-empty, the notification is valid exactly when
      an earliest candidate is not in the past, and then reports the
      smallest wait. */
  lemma EarliestNotificationSpec(cands: seq<Candidate>, sub: Subscription,
                                 routeNames: map<string, string>, stopNames: map<string, string>, now: int)
    requires |cands| > 0
    requires forall i :: 0 <= i < |cands| ==> cands[i].tripId != ""
    ensures var n := EarliestNotification(cands, sub, routeNames, stopNames, now);
      (n.isValid <==> exists i :: IsEarliest(cands, i) && cands[i].arrival - now >= 0)
      && (n.isValid ==> forall j :: 0 <= j < |cands| ==> 0 <= n.nextArrivalTime <= cands[j].arrival - now)
  {
    EarliestIsMinimum(cands);
    var m := Earliest(cands);
    var k :| 0 <= k < |cands| && cands[k] == m;
    assert IsEarliest(cands, k);
    if m.arrival - now < 0 {
      forall i | IsEarliest(cands, i)
        ensures cands[i].arrival - now < 0
      {
        assert cands[i].arrival <= cands[k].arrival;
      }
    }
  }

  /** When every candidate has a trip id, GetNotifications reports the
      earliest candidate's wait, provided that arrival is not in the past. */
  lemma ByTripReportsEarliest(feed: seq<FeedEntity>, sub: Subscription,
                              routeNames: map<string, string>, stopNames: map<string, string>, now: int)
    requires |Candidates(feed, sub)| > 0
    requires forall i :: 0 <= i < |Candidates(feed, sub)| ==> Candidates(feed, sub)[i].tripId != ""
    ensures var n := NotificationByTrip(feed, sub, routeNames, stopNames, now);
      var cands := Candidates(feed, sub);
      (n.isValid <==> exists i :: IsEarliest(cands, i) && cands[i].arrival - now >= 0)
      && (n.isValid ==> forall j :: 0 <= j < |cands| ==> 0 <= n.nextArrivalTime <= cands[j].arrival - now)
  {
    EarliestNotificationSpec(Candidates(feed, sub), sub, routeNames, stopNames, now);
  }
}
