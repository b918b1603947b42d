/**
 * The location part of the complaint page's session state in app.py: the
 * guarded initialisation of latitude, longitude and location_set, the two
 * confirming updates (the "Set Manual Location" button and a click on the
 * map), and one run of the page script, which ends in the submit handler.
 */
module Session {
  import opened Wrappers
  import Submission

  /** The default centre, used until a location is chosen. */
  const DefaultLatitude: real := 20.5937
  const DefaultLongitude: real := 78.9629

  /** The coordinates of a click on the map. */
  datatype LatLng = LatLng(lat: real, lng: real)

  /**
   * What the map widget returned in one run. lastClicked is None when the
   * returned value has no last_clicked entry or that entry is empty.
   */
  datatype MapData = MapData(lastClicked: Option<LatLng>)

  /** The three session keys; None is a key that is not yet in the session. */
  datatype State = State(latitude: Option<real>, longitude: Option<real>, locationSet: Option<bool>)

  /** Every key is present, as it is after the initialisation at the top of each run. */
  predicate Initialized(s: State)
  {
    s.latitude.Some? && s.longitude.Some? && s.locationSet.Some?
  }

  /** The initialisation guards: each missing key gets its default, each present key keeps its value. */
  function AfterInit(s: State): (t: State)
    ensures Initialized(t)
    ensures s.latitude.Some? ==> t.latitude == s.latitude
    ensures s.longitude.Some? ==> t.longitude == s.longitude
    ensures s.locationSet.Some? ==> t.locationSet == s.locationSet
    ensures s.latitude.None? ==> t.latitude == Some(DefaultLatitude)
    ensures s.longitude.None? ==> t.longitude == Some(DefaultLongitude)
    ensures s.locationSet.None? ==> t.locationSet == Some(false)
  {
    State(
      if s.latitude.None? then Some(DefaultLatitude) else s.latitude,
      if s.longitude.None? then Some(DefaultLongitude) else s.longitude,
      if s.locationSet.None? then Some(false) else s.locationSet)
  }

  /** A location confirmed by the button or by a map click: both coordinates and the flag are overwritten. */
  function Confirmed(lat: real, lng: real): State
  {
    State(Some(lat), Some(lng), Some(true))
  }

  /** The map handler: only a returned value with a last click changes the state. */
  function AfterMapData(s: State, data: Option<MapData>): (t: State)
    ensures data.None? || data.value.lastClicked.None? ==> t == s
    ensures data.Some? && data.value.lastClicked.Some? ==>
      t.latitude == Some(data.value.lastClicked.value.lat) &&
      t.longitude == Some(data.value.lastClicked.value.lng) &&
      t.locationSet == Some(true)
  {
    match data
    case Some(MapData(Some(click))) => Confirmed(click.lat, click.lng)
    case _ => s
  }

  /** The things that change the location keys during a session, in the order the script meets them. */
  datatype Event =
    | InitKeys
    | ManualSet(lat: real, lng: real)
    | MapReturned(data: Option<MapData>)

  /** The event sets the location: a manual set, or map data with a last click. */
  predicate Confirms(e: Event)
  {
    e.ManualSet? || (e.MapReturned? && e.data.Some? && e.data.value.lastClicked.Some?)
  }

  /** The coordinates a confirming event sets. */
  function ConfirmedAt(e: Event): LatLng
    requires Confirms(e)
  {
    if e.ManualSet? then LatLng(e.lat, e.lng) else e.data.value.lastClicked.value
  }

  /**
   * One event. The flag becomes true exactly on a confirming event and never
   * leaves true; it is false afterwards only when it was false before, or was
   * missing and the event is the initialisation. A confirming event sets the
   * coordinates it carries; any other event leaves an initialised state alone.
   */
  function Step(s: State, e: Event): (t: State)
    ensures t.locationSet == Some(true) <==> s.locationSet == Some(true) || Confirms(e)
    ensures t.locationSet == Some(false) <==>
      !Confirms(e) && (s.locationSet == Some(false) || (s.locationSet.None? && e.InitKeys?))
    ensures Confirms(e) ==> t == Confirmed(ConfirmedAt(e).lat, ConfirmedAt(e).lng)
    ensures !Confirms(e) && Initialized(s) ==> t == s
    ensures e.InitKeys? || Initialized(s) ==> Initialized(t)
  {
    match e
    case InitKeys => AfterInit(s)
    case ManualSet(lat, lng) => Confirmed(lat, lng)
    case MapReturned(data) => AfterMapData(s, data)
  }

  /** The state after the events, one after the other. */
  function Replay(s: State, es: seq<Event>): State
    decreases |es|
  {
    if es == [] then s else Replay(Step(s, es[0]), es[1..])
  }

  /** Replaying two sequences of events one after the other is replaying their concatenation. */
  lemma {:induction false} ReplayAppend(s: State, a: seq<Event>, b: seq<Event>)
    ensures Replay(s, a + b) == Replay(Replay(s, a), b)
    decreases |a|
  {
    if a == [] {
      assert a + b == b;
    } else {
      assert (a + b)[0] == a[0] && (a + b)[1..] == a[1..] + b;
      ReplayAppend(Step(s, a[0]), a[1..], b);
    }
  }

  /** Initialising twice is the same as initialising once; an initialised state is left alone. */
  lemma InitIdempotent(s: State)
    ensures AfterInit(AfterInit(s)) == AfterInit(s)
    ensures Initialized(s) ==> AfterInit(s) == s
  {
  }

  /** Once true, location_set stays true whatever happens next. */
  lemma {:induction false} LocationSetMonotone(s: State, es: seq<Event>)
    requires s.locationSet == Some(true)
    ensures Replay(s, es).locationSet == Some(true)
    decreases |es|
  {
    if es != [] {
      LocationSetMonotone(Step(s, es[0]), es[1..]);
    }
  }

  /** location_set is true after the events exactly when it was true before or one of them confirms a location. */
  lemma {:induction false} LocationSetIffConfirmed(s: State, es: seq<Event>)
    ensures Replay(s, es).locationSet == Some(true) <==>
      s.locationSet == Some(true) || exists i :: 0 <= i < |es| && Confirms(es[i])
    decreases |es|
  {
    if es != [] {
      LocationSetIffConfirmed(Step(s, es[0]), es[1..]);
      assert forall i :: 0 <= i < |es| - 1 ==> es[1..][i] == es[i + 1];
      if exists i :: 0 <= i < |es| && Confirms(es[i]) {
        var i :| 0 <= i < |es| && Confirms(es[i]);
        if i > 0 {
          assert Confirms(es[1..][i - 1]);
        }
      }
    }
  }

  /**
   * The only way location_set becomes false is the initialisation of a
   * missing key: it is false after the events exactly when none of them
   * confirms a location and it was false before, or was missing and one of
   * the events is the initialisation.
   */
  lemma {:induction false} LocationSetFalseIff(s: State, es: seq<Event>)
    ensures Replay(s, es).locationSet == Some(false) <==>
      (forall i :: 0 <= i < |es| ==> !Confirms(es[i])) &&
      (s.locationSet == Some(false) || (s.locationSet.None? && exists i :: 0 <= i < |es| && es[i].InitKeys?))
    decreases |es|
  {
    if es != [] {
      var t := Step(s, es[0]);
      LocationSetFalseIff(t, es[1..]);
      assert forall i :: 0 <= i < |es| - 1 ==> es[1..][i] == es[i + 1];
      assert forall i :: 0 < i < |es| ==> es[i] == es[1..][i - 1];
    }
  }

  /**
   * The last confirming event decides the location: when no event after it
   * confirms, the coordinates are the ones it carries and the flag is true.
   */
  lemma {:induction false} LastConfirmationWins(s: State, es: seq<Event>, k: nat)
    requires k < |es| && Confirms(es[k])
    requires forall j :: k < j < |es| ==> !Confirms(es[j])
    ensures Replay(s, es) == Confirmed(ConfirmedAt(es[k]).lat, ConfirmedAt(es[k]).lng)
    decreases |es|
  {
    if k == 0 {
      NonConfirmingKeepsState(Step(s, es[0]), es[1..]);
    } else {
      assert forall j :: k - 1 < j < |es| - 1 ==> es[1..][j] == es[j + 1];
      LastConfirmationWins(Step(s, es[0]), es[1..], k - 1);
    }
  }

  /** Events that confirm nothing leave an initialised state exactly as it is. */
  lemma {:induction false} NonConfirmingKeepsState(s: State, es: seq<Event>)
    requires Initialized(s)
    requires forall i :: 0 <= i < |es| ==> !Confirms(es[i])
    ensures Replay(s, es) == s
    decreases |es|
  {
    if es != [] {
      assert !Confirms(es[0]);
      assert forall i :: 0 <= i < |es| - 1 ==> es[1..][i] == es[i + 1];
      NonConfirmingKeepsState(Step(s, es[0]), es[1..]);
    }
  }

  // ---------------------------------------------------------------------------
  // One run of the page script
  // ---------------------------------------------------------------------------

  /**
   * What one run of the script receives from the page: the complaint text,
   * whether "Set Manual Location" was pressed and the two numbers next to it,
   * what the map widget returned, and whether "Submit Complaint" was pressed.
   */
  datatype RunInput = RunInput(
    complaint: string,
    manualPressed: bool, manualLat: real, manualLon: real,
    mapData: Option<MapData>,
    submitPressed: bool)

  /**
   * How a run ends: cut short by the rerun that follows a manual set, or
   * finished, with the submit handler's result when the button was pressed.
   */
  datatype RunOutcome =
    | Rerun
    | Finished(submission: Option<Result<Submission.Complaint, Submission.SubmitError>>)

  /** The events of one run: the initialisation, then the manual set or else the map data. */
  function RunEvents(input: RunInput): (es: seq<Event>)
    ensures |es| == 2 && es[0] == InitKeys
    ensures es[1].ManualSet? <==> input.manualPressed
    ensures Confirms(es[1]) <==>
      input.manualPressed || (input.mapData.Some? && input.mapData.value.lastClicked.Some?)
  {
    if input.manualPressed then [InitKeys, ManualSet(input.manualLat, input.manualLon)]
    else [InitKeys, MapReturned(input.mapData)]
  }

  lemma ReplayTwo(s: State, a: Event, b: Event)
    ensures Replay(s, [a, b]) == Step(Step(s, a), b)
  {
    var t := Step(Step(s, a), b);
    assert [b][1..] == [];
    assert Replay(t, []) == t;
    assert Replay(Step(s, a), [b]) == t;
    assert [a, b][1..] == [b];
  }

  /** The submit handler applied to the current values of the keys. */
  function SubmitIn(s: State, complaint: string, predict: string -> int): Result<Submission.Complaint, Submission.SubmitError>
    requires Initialized(s)
  {
    Submission.Submit(complaint, s.latitude.value, s.longitude.value, s.locationSet.value, predict)
  }

  /** The state a run leaves behind, from the state it started in. */
  function AfterRun(s: State, input: RunInput): (t: State)
    ensures t == Replay(s, RunEvents(input))
    ensures Initialized(t)
  {
    ReplayTwo(s, RunEvents(input)[0], RunEvents(input)[1]);
    var i := AfterInit(s);
    if input.manualPressed then Confirmed(input.manualLat, input.manualLon) else AfterMapData(i, input.mapData)
  }

  /** How a run ends, from the state it started in. */
  function Outcome(s: State, input: RunInput, predict: string -> int): (o: RunOutcome)
    ensures o == Rerun <==> input.manualPressed
    ensures o.Finished? ==> (o.submission.Some? <==> input.submitPressed)
  {
    if input.manualPressed then Rerun
    else if input.submitPressed then Finished(Some(SubmitIn(AfterRun(s, input), input.complaint, predict)))
    else Finished(None)
  }

  /**
   * A complaint submitted in the run in which the map was clicked is checked
   * against the clicked location: a long enough text is accepted with the
   * clicked coordinates, a short one is refused for its length.
   */
  lemma SubmitSeesClickOfSameRun(s: State, input: RunInput, predict: string -> int)
    requires !input.manualPressed && input.submitPressed
    requires input.mapData.Some? && input.mapData.value.lastClicked.Some?
    ensures Outcome(s, input, predict).Finished?
    ensures Outcome(s, input, predict).submission.Some?
    ensures Outcome(s, input, predict).submission.value.Success? <==> Submission.LongEnough(input.complaint)
    ensures Outcome(s, input, predict).submission.value.Success? ==>
      Outcome(s, input, predict).submission.value.value.latitude == input.mapData.value.lastClicked.value.lat &&
      Outcome(s, input, predict).submission.value.value.longitude == input.mapData.value.lastClicked.value.lng
  {
  }

  /**
   * Without any confirmation so far and without a click in this run, a long
   * enough complaint is refused for its location and produces no record.
   */
  lemma SubmitWithoutConfirmationRefused(s: State, input: RunInput, predict: string -> int)
    requires s.locationSet != Some(true)
    requires !input.manualPressed && input.submitPressed
    requires input.mapData.None? || input.mapData.value.lastClicked.None?
    requires Submission.LongEnough(input.complaint)
    ensures Outcome(s, input, predict) == Finished(Some(Failure(Submission.LocationNotSet)))
  {
    LocationSetIffConfirmed(s, RunEvents(input));
  }

  /**
   * A manual set does not survive a following run whose map data still
   * holds a last click: that run applies the click after the initialisation,
   * so the clicked coordinates replace the entered ones.
   */
  lemma ClickInNextRunReplacesManualSet(s: State, manual: RunInput, next: RunInput)
    requires manual.manualPressed && !next.manualPressed
    requires next.mapData.Some? && next.mapData.value.lastClicked.Some?
    ensures Replay(Replay(s, RunEvents(manual)), RunEvents(next)) ==
      Confirmed(next.mapData.value.lastClicked.value.lat, next.mapData.value.lastClicked.value.lng)
  {
    var es := RunEvents(manual) + RunEvents(next);
    assert |es| == 4 && es[3] == MapReturned(next.mapData);
    LastConfirmationWins(s, es, 3);
    ReplayAppend(s, RunEvents(manual), RunEvents(next));
  }

  // ---------------------------------------------------------------------------
  // The session state as the script updates it
  // ---------------------------------------------------------------------------

  /** The session's location keys, updated in place by the script. */
  class SessionState {
    var latitude: Option<real>
    var longitude: Option<real>
    var locationSet: Option<bool>

    /** The current values of the three keys. */
    function Snapshot(): State
      reads this
    {
      State(latitude, longitude, locationSet)
    }

    /** A new session holds none of the keys. */
    constructor()
      ensures Snapshot() == State(None, None, None)
    {
      latitude := None;
      longitude := None;
      locationSet := None;
    }

    /** The initialisation guards at the top of each run. */
    method InitializeKeys()
      modifies this
      ensures Snapshot() == AfterInit(old(Snapshot()))
      ensures Initialized(Snapshot())
    {
      if latitude.None? {
        latitude := Some(DefaultLatitude);
      }
      if longitude.None? {
        longitude := Some(DefaultLongitude);
      }
      if locationSet.None? {
        locationSet := Some(false);
      }
    }

    /** "Set Manual Location": the entered numbers become the location and the flag is set. */
    method SetManualLocation(manualLat: real, manualLon: real)
      modifies this
      ensures latitude == Some(manualLat) && longitude == Some(manualLon) && locationSet == Some(true)
      ensures Snapshot() == Step(old(Snapshot()), ManualSet(manualLat, manualLon))
    {
      latitude := Some(manualLat);
      longitude := Some(manualLon);
      locationSet := Some(true);
    }

    /** The map handler: a returned value with a last click sets the location to the click. */
    method UpdateFromMap(mapData: Option<MapData>)
      modifies this
      ensures Snapshot() == Step(old(Snapshot()), MapReturned(mapData))
      ensures mapData.None? || mapData.value.lastClicked.None? ==> Snapshot() == old(Snapshot())
      ensures mapData.Some? && mapData.value.lastClicked.Some? ==>
        latitude == Some(mapData.value.lastClicked.value.lat) &&
        longitude == Some(mapData.value.lastClicked.value.lng) &&
        locationSet == Some(true)
    {
      if mapData.Some? {
        if mapData.value.lastClicked.Some? {
          latitude := Some(mapData.value.lastClicked.value.lat);
          longitude := Some(mapData.value.lastClicked.value.lng);
          locationSet := Some(true);
        }
      }
    }

    /** The submit handler, reading the keys and changing none of them. */
    method SubmitComplaint(complaint: string, predict: string -> int)
      returns (r: Result<Submission.Complaint, Submission.SubmitError>)
      requires Initialized(Snapshot())
      ensures r == Submission.Submit(complaint, latitude.value, longitude.value, locationSet.value, predict)
    {
      r := Submission.Submit(complaint, latitude.value, longitude.value, locationSet.value, predict);
    }

    /**
     * One run of the script: initialise the keys; on "Set Manual Location"
     * set the location and stop for the rerun; otherwise apply the map data
     * and, when "Submit Complaint" was pressed, run the submit handler on
     * the keys as the map left them.
     */
    method Run(input: RunInput, predict: string -> int) returns (outcome: RunOutcome)
      modifies this
      ensures Snapshot() == AfterRun(old(Snapshot()), input)
      ensures Snapshot() == Replay(old(Snapshot()), RunEvents(input))
      ensures outcome == Outcome(old(Snapshot()), input, predict)
    {
      InitializeKeys();
      if input.manualPressed {
        SetManualLocation(input.manualLat, input.manualLon);
        return Rerun;
      }
      UpdateFromMap(input.mapData);
      if input.submitPressed {
        var r := SubmitComplaint(input.complaint, predict);
        outcome := Finished(Some(r));
      } else {
        outcome := Finished(None);
      }
    }
  }
}
