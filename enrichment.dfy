/** `enrich_with_maps`: turns the itinerary the language model wrote into the
    response the API returns, giving every field a default, every activity a
    location record with a maps link, and every activity a category icon.

    The functions below state, one activity and one day at a time, what the
    loops of the source compute; `EnrichWithMaps` is those loops, proved to
    compute `Enriched`. */
module Enrichment {
  import opened Results
  import opened PyJson
  import opened MapsLinks

  /** The icons, character for character as the source file holds them
      (each reads as an emoji's UTF-8 bytes shown in Mac Roman). */
  const MusicIcon: string := "\U{F8FF}\U{FC}\U{E9}\U{B5}"
  const FilmIcon: string := "\U{F8FF}\U{FC}\U{E9}\U{A8}"
  const FashionIcon: string := "\U{F8FF}\U{FC}\U{EB}\U{F3}"
  const DiningIcon: string := "\U{F8FF}\U{FC}\U{E7}\U{3A9}\U{D4}\U{220F}\U{E8}"
  const HiddenGemIcon: string := "\U{F8FF}\U{FC}\U{ED}\U{E9}"
  const PinIcon: string := "\U{F8FF}\U{FC}\U{EC}\U{E7}"

  datatype Location = Location(name: Json, mapsLink: string, address: string)

  datatype Activity = Activity(
    time: Json,
    location: Location,
    category: Json,
    description: Json,
    culturalConnection: Json,
    categoryIcon: string)

  datatype Day = Day(dayNumber: Json, theme: Json, activities: seq<Activity>)

  datatype TravelPlan = TravelPlan(
    destination: Json,
    durationDays: Json,
    summary: string,
    travelImage: string,
    days: seq<Day>)

  /** What `generate_itinerary_response` hands back. */
  datatype Response =
    | Itinerary(status: string, plan: TravelPlan)
    | ErrorResponse(error: string, rawResponse: string)

  /** The icon table lookup `{...}.get(category, pin)`. Looking up a list or
      a dict raises TypeError, since a dict key must be hashable. */
  function CategoryIcon(category: Json): (r: Result<string, PyError>)
    ensures r.Success? <==> Hashable(category)
    ensures !Hashable(category) ==> r == Failure(Unhashable(TypeName(category)))
    ensures r.Success? ==>
      r.value in {MusicIcon, FilmIcon, FashionIcon, DiningIcon, HiddenGemIcon, PinIcon}
  {
    if !Hashable(category) then Failure(Unhashable(TypeName(category)))
    else if category == JStr("music") then Success(MusicIcon)
    else if category == JStr("film") then Success(FilmIcon)
    else if category == JStr("fashion") then Success(FashionIcon)
    else if category == JStr("dining") then Success(DiningIcon)
    else if category == JStr("hidden_gem") then Success(HiddenGemIcon)
    else Success(PinIcon)
  }

  /** The five named categories get five different symbols, none of them the
      pin; every other hashable category, "general" and "movie" among them,
      gets the pin. */
  lemma IconTable(category: Json)
    ensures CategoryIcon(JStr("music")) == Success(MusicIcon)
    ensures CategoryIcon(JStr("film")) == Success(FilmIcon)
    ensures CategoryIcon(JStr("fashion")) == Success(FashionIcon)
    ensures CategoryIcon(JStr("dining")) == Success(DiningIcon)
    ensures CategoryIcon(JStr("hidden_gem")) == Success(HiddenGemIcon)
    ensures |{MusicIcon, FilmIcon, FashionIcon, DiningIcon, HiddenGemIcon, PinIcon}| == 6
    ensures Hashable(category) &&
            !(category.JStr? && category.s in ["music", "film", "fashion", "dining", "hidden_gem"])
            ==> CategoryIcon(category) == Success(PinIcon)
    ensures CategoryIcon(JStr("general")) == Success(PinIcon)
    ensures CategoryIcon(JStr("movie")) == Success(PinIcon)
  {
  }

  /** `act.get("location") or act.get("name", "Unknown")`: the activity's
      own truthy "location", else its "name" entry whatever its value, else
      "Unknown". */
  function LocationName(fields: seq<Field>): (name: Json)
    ensures Truthy(Lookup(fields, "location", JNull)) ==> Field("location", name) in fields
    ensures !Truthy(Lookup(fields, "location", JNull)) && HasKey(fields, "name") ==>
      Field("name", name) in fields
    ensures !Truthy(Lookup(fields, "location", JNull)) && !HasKey(fields, "name") ==>
      name == JStr("Unknown")
  {
    var location := Lookup(fields, "location", JNull);
    if Truthy(location) then location else Lookup(fields, "name", JStr("Unknown"))
  }

  /** One activity of the output, built from one activity of the input. It
      is built unless the activity is not a dict (AttributeError on `get`),
      or the location name or the city cannot be hashed by the cache, or the
      category cannot be hashed by the icon table (TypeError, in that
      order). */
  function EnrichActivity(act: Json, city: Json): (r: Result<Activity, PyError>)
    ensures r.Success? <==>
      act.JObj? && Hashable(LocationName(act.fields)) && Hashable(city)
      && Hashable(Lookup(act.fields, "category", JStr("")))
    ensures !act.JObj? ==> r == Failure(AttributeError(TypeName(act), "get"))
    ensures act.JObj? && !Hashable(LocationName(act.fields)) ==>
      r == Failure(Unhashable(TypeName(LocationName(act.fields))))
    ensures act.JObj? && Hashable(LocationName(act.fields)) && !Hashable(city) ==>
      r == Failure(Unhashable(TypeName(city)))
    ensures (act.JObj? && Hashable(LocationName(act.fields)) && Hashable(city)
             && !Hashable(Lookup(act.fields, "category", JStr("")))) ==>
      r == Failure(Unhashable(TypeName(Lookup(act.fields, "category", JStr("")))))
  {
    if !act.JObj? then Failure(AttributeError(TypeName(act), "get"))
    else
      var name := LocationName(act.fields);
      var link :- CachedMapsLink(name, city);
      var icon :- CategoryIcon(Lookup(act.fields, "category", JStr("")));
      Success(Activity(
        Lookup(act.fields, "time", JStr("TBD")),
        Location(name, link, Str(name) + ", " + Str(city)),
        Lookup(act.fields, "category", JStr("general")),
        Lookup(act.fields, "description", Lookup(act.fields, "name", JStr(""))),
        Lookup(act.fields, "cultural_connection", JStr("")),
        icon))
  }

  function ActivityFn(city: Json): Json -> Result<Activity, PyError>
  {
    act => EnrichActivity(act, city)
  }

  /** The location record: its name is the input "location" when that is
      truthy, else the input "name" when present, else "Unknown"; its
      address and maps link are made from that same name and the city. */
  lemma ActivityLocationRule(act: Json, city: Json)
    requires act.JObj? && Hashable(LocationName(act.fields)) && Hashable(city)
    requires Hashable(Lookup(act.fields, "category", JStr("")))
    ensures EnrichActivity(act, city).Success?
    ensures var loc := EnrichActivity(act, city).value.location;
      var f := act.fields;
      && (Truthy(Lookup(f, "location", JNull)) ==> loc.name == Lookup(f, "location", JNull))
      && (!Truthy(Lookup(f, "location", JNull)) && HasKey(f, "name") ==>
            loc.name == Lookup(f, "name", JNull))
      && (!Truthy(Lookup(f, "location", JNull)) && !HasKey(f, "name") ==>
            loc.name == JStr("Unknown"))
      && loc.address == Str(loc.name) + ", " + Str(city)
      && loc.mapsLink == MapsLink(Str(loc.name), Str(city))
      && loc.mapsLink[..|SearchPrefix|] == SearchPrefix
  {
    if HasKey(act.fields, "name") {
      LookupIgnoresDefault(act.fields, "name", JNull, JStr("Unknown"));
    }
  }

  /** An activity whose "name" is present but empty keeps the empty name:
      the "Unknown" fallback applies only when the key is missing. */
  lemma EmptyNameKept(city: Json)
    requires Hashable(city)
    ensures EnrichActivity(JObj([Field("name", JStr(""))]), city).Success?
    ensures EnrichActivity(JObj([Field("name", JStr(""))]), city).value.location.name == JStr("")
  {
  }

  /** The other fields of an output activity: each is the input field when
      present and otherwise its default; the icon depends on the category
      alone. */
  lemma ActivityDefaults(act: Json, city: Json)
    requires act.JObj? && Hashable(LocationName(act.fields)) && Hashable(city)
    requires Hashable(Lookup(act.fields, "category", JStr("")))
    ensures EnrichActivity(act, city).Success?
    ensures var a := EnrichActivity(act, city).value;
      var f := act.fields;
      && (HasKey(f, "time") ==> a.time == Lookup(f, "time", JNull))
      && (!HasKey(f, "time") ==> a.time == JStr("TBD"))
      && (HasKey(f, "category") ==> a.category == Lookup(f, "category", JNull))
      && (!HasKey(f, "category") ==> a.category == JStr("general"))
      && (HasKey(f, "description") ==> a.description == Lookup(f, "description", JNull))
      && (!HasKey(f, "description") && HasKey(f, "name") ==> a.description == Lookup(f, "name", JNull))
      && (!HasKey(f, "description") && !HasKey(f, "name") ==> a.description == JStr(""))
      && (HasKey(f, "cultural_connection") ==>
            a.culturalConnection == Lookup(f, "cultural_connection", JNull))
      && (!HasKey(f, "cultural_connection") ==> a.culturalConnection == JStr(""))
      && (HasKey(f, "category") ==> Success(a.categoryIcon) == CategoryIcon(a.category))
      && (!HasKey(f, "category") ==> a.categoryIcon == PinIcon)
  {
    var f := act.fields;
    var name := LocationName(f);
    assert EnrichActivity(act, city) == Success(Activity(
      Lookup(f, "time", JStr("TBD")),
      Location(name, MapsLink(Str(name), Str(city)), Str(name) + ", " + Str(city)),
      Lookup(f, "category", JStr("general")),
      Lookup(f, "description", Lookup(f, "name", JStr(""))),
      Lookup(f, "cultural_connection", JStr("")),
      CategoryIcon(Lookup(f, "category", JStr(""))).value));
    if HasKey(f, "time") { LookupIgnoresDefault(f, "time", JNull, JStr("TBD")); }
    if HasKey(f, "category") {
      LookupIgnoresDefault(f, "category", JNull, JStr("general"));
      LookupIgnoresDefault(f, "category", JStr(""), JStr("general"));
    }
    if HasKey(f, "description") {
      LookupIgnoresDefault(f, "description", JNull, Lookup(f, "name", JStr("")));
    }
    if HasKey(f, "name") { LookupIgnoresDefault(f, "name", JNull, JStr("")); }
    if HasKey(f, "cultural_connection") {
      LookupIgnoresDefault(f, "cultural_connection", JNull, JStr(""));
    }
  }

  /** `day.get("activities", day.get("items", []))`, iterated; a day that
      is not a dict raises AttributeError on `get`. */
  function ActivityInputs(day: Json): (r: Result<seq<Json>, PyError>)
    ensures !day.JObj? ==> r == Failure(AttributeError(TypeName(day), "get"))
    ensures r.Success? ==> day.JObj?
  {
    var items :- PyGet(day, "items", JArr([]));
    var acts :- PyGet(day, "activities", items);
    Iterate(acts)
  }

  /** Activities come from "activities", else from "items", else there are
      none. */
  lemma ActivitySource(day: Json)
    ensures day.JObj? && HasKey(day.fields, "activities") ==>
      ActivityInputs(day) == Iterate(Lookup(day.fields, "activities", JNull))
    ensures day.JObj? && !HasKey(day.fields, "activities") && HasKey(day.fields, "items") ==>
      ActivityInputs(day) == Iterate(Lookup(day.fields, "items", JNull))
    ensures day.JObj? && !HasKey(day.fields, "activities") && !HasKey(day.fields, "items") ==>
      ActivityInputs(day) == Success([])
  {
    if day.JObj? {
      var items := Lookup(day.fields, "items", JArr([]));
      if HasKey(day.fields, "activities") {
        LookupIgnoresDefault(day.fields, "activities", JNull, items);
      }
      if HasKey(day.fields, "items") {
        LookupIgnoresDefault(day.fields, "items", JNull, JArr([]));
      }
    }
  }

  /** One day of the output, built from one day of the input. A day whose
      activities cannot be found raises what that lookup raises, and a day
      with an activity that cannot be enriched raises what the first such
      activity raises. */
  function EnrichDay(day: Json, city: Json): (r: Result<Day, PyError>)
    ensures ActivityInputs(day).Failure? ==> r == Failure(ActivityInputs(day).error)
    ensures ActivityInputs(day).Success? ==>
      var acts := ActivityInputs(day).value;
      forall k :: (0 <= k < |acts|
                   && (forall i :: 0 <= i < k ==> EnrichActivity(acts[i], city).Success?)
                   && EnrichActivity(acts[k], city).Failure?)
                  ==> r == Failure(EnrichActivity(acts[k], city).error)
    ensures r.Success? ==> day.JObj?
  {
    var acts :- ActivityInputs(day);
    assert forall k :: (0 <= k < |acts|
                        && (forall i :: 0 <= i < k ==> EnrichActivity(acts[i], city).Success?)
                        && EnrichActivity(acts[k], city).Failure?)
                       ==> MapAll(ActivityFn(city), acts) == Failure(EnrichActivity(acts[k], city).error)
    by {
      forall k | 0 <= k < |acts|
                 && (forall i :: 0 <= i < k ==> EnrichActivity(acts[i], city).Success?)
                 && EnrichActivity(acts[k], city).Failure?
      {
        MapAllFailsAt(ActivityFn(city), acts, k);
      }
    }
    var activities :- MapAll(ActivityFn(city), acts);
    Success(Day(Lookup(day.fields, "day", JNum(1)), Lookup(day.fields, "theme", JStr("Cultural day")), activities))
  }

  function DayFn(city: Json): Json -> Result<Day, PyError>
  {
    day => EnrichDay(day, city)
  }

  /** A day is enriched exactly when all its activities are; it then keeps
      their number and order, and its number and theme default to 1 and
      "Cultural day". */
  lemma {:induction false} EnrichDayKeepsActivities(day: Json, city: Json)
    ensures EnrichDay(day, city).Success? <==>
      ActivityInputs(day).Success? &&
      forall k :: 0 <= k < |ActivityInputs(day).value| ==>
        EnrichActivity(ActivityInputs(day).value[k], city).Success?
    ensures EnrichDay(day, city).Success? ==>
      var acts := ActivityInputs(day).value;
      var d := EnrichDay(day, city).value;
      && |d.activities| == |acts|
      && (forall k :: 0 <= k < |acts| ==> EnrichActivity(acts[k], city) == Success(d.activities[k]))
      && day.JObj?
      && (HasKey(day.fields, "day") ==> d.dayNumber == Lookup(day.fields, "day", JNull))
      && (!HasKey(day.fields, "day") ==> d.dayNumber == JNum(1))
      && (HasKey(day.fields, "theme") ==> d.theme == Lookup(day.fields, "theme", JNull))
      && (!HasKey(day.fields, "theme") ==> d.theme == JStr("Cultural day"))
  {
    var inputs := ActivityInputs(day);
    if inputs.Success? {
      var acts := inputs.value;
      MapAllSucceeds(ActivityFn(city), acts);
      assert forall k :: 0 <= k < |acts| ==> ActivityFn(city)(acts[k]) == EnrichActivity(acts[k], city);
      if day.JObj? {
        if HasKey(day.fields, "day") { LookupIgnoresDefault(day.fields, "day", JNull, JNum(1)); }
        if HasKey(day.fields, "theme") {
          LookupIgnoresDefault(day.fields, "theme", JNull, JStr("Cultural day"));
        }
      }
    }
  }

  /** `parsed_data.get("itinerary", {})`, which must itself be a dict. */
  function ItineraryFields(parsed: Json): Result<seq<Field>, PyError>
  {
    var itinerary :- PyGet(parsed, "itinerary", JObj([]));
    if itinerary.JObj? then Success(itinerary.fields)
    else Failure(AttributeError(TypeName(itinerary), "get"))
  }

  /** The city every link and address uses. */
  function Destination(parsed: Json): Json
  {
    match ItineraryFields(parsed)
    case Success(fields) => Lookup(fields, "destination", JStr("Tokyo"))
    case Failure(_) => JStr("Tokyo")
  }

  /** `itinerary.get("days", [])`, iterated. */
  function DayInputs(parsed: Json): Result<seq<Json>, PyError>
  {
    var fields :- ItineraryFields(parsed);
    Iterate(Lookup(fields, "days", JArr([])))
  }

  function Summary(duration: Json, city: Json): string
  {
    Str(duration) + "-day cultural itinerary for " + Str(city)
  }

  function TravelImage(city: Json): string
  {
    "https://picsum.photos/seed/" + Str(city) + "/1200/800"
  }

  /** The whole enrichment, as a value. A document or itinerary that is not
      a dict, or days that cannot be iterated, raise before any day is
      looked at; a success is always an itinerary with status "success" for
      the destination. */
  function Enriched(parsed: Json): (r: Result<Response, PyError>)
    ensures !parsed.JObj? ==> r == Failure(AttributeError(TypeName(parsed), "get"))
    ensures ItineraryFields(parsed).Failure? ==> r == Failure(ItineraryFields(parsed).error)
    ensures ItineraryFields(parsed).Success? && DayInputs(parsed).Failure? ==>
      r == Failure(DayInputs(parsed).error)
    ensures r.Success? ==>
      r.value.Itinerary? && r.value.status == "success" && r.value.plan.destination == Destination(parsed)
  {
    var fields :- ItineraryFields(parsed);
    var city := Lookup(fields, "destination", JStr("Tokyo"));
    var duration := Lookup(fields, "duration", JNum(1));
    var days :- Iterate(Lookup(fields, "days", JArr([])));
    var enriched :- MapAll(DayFn(city), days);
    Success(Itinerary("success", TravelPlan(city, duration, Summary(duration, city), TravelImage(city), enriched)))
  }

  /** Enrichment succeeds exactly when the days can be iterated and every
      day is enriched. */
  lemma {:induction false} EnrichedSucceeds(parsed: Json)
    ensures Enriched(parsed).Success? <==>
      DayInputs(parsed).Success? &&
      forall k :: 0 <= k < |DayInputs(parsed).value| ==>
        EnrichDay(DayInputs(parsed).value[k], Destination(parsed)).Success?
  {
    var inputs := DayInputs(parsed);
    if inputs.Success? {
      var days := inputs.value;
      var city := Destination(parsed);
      MapAllSucceeds(DayFn(city), days);
      assert forall k :: 0 <= k < |days| ==> DayFn(city)(days[k]) == EnrichDay(days[k], city);
    }
  }

  /** A successful enrichment keeps the number and order of the days, each
      enriched against the destination, and its status is "success". */
  lemma {:induction false} EnrichedKeepsDays(parsed: Json)
    requires Enriched(parsed).Success?
    ensures DayInputs(parsed).Success?
    ensures var days := DayInputs(parsed).value;
      var response := Enriched(parsed).value;
      && response.Itinerary?
      && response.status == "success"
      && response.plan.destination == Destination(parsed)
      && |response.plan.days| == |days|
      && forall k :: 0 <= k < |days| ==>
           EnrichDay(days[k], Destination(parsed)) == Success(response.plan.days[k])
  {
    var days := DayInputs(parsed).value;
    var city := Destination(parsed);
    MapAllSucceeds(DayFn(city), days);
    assert forall k :: 0 <= k < |days| ==> DayFn(city)(days[k]) == EnrichDay(days[k], city);
  }

  /** The first day that cannot be enriched decides the exception the whole
      enrichment raises, and so the "JSON parse failed" message. */
  lemma EnrichedFirstFailingDay(parsed: Json, k: nat)
    requires DayInputs(parsed).Success? && k < |DayInputs(parsed).value|
    requires forall i :: 0 <= i < k ==>
      EnrichDay(DayInputs(parsed).value[i], Destination(parsed)).Success?
    requires EnrichDay(DayInputs(parsed).value[k], Destination(parsed)).Failure?
    ensures Enriched(parsed) == Failure(EnrichDay(DayInputs(parsed).value[k], Destination(parsed)).error)
  {
    var days := DayInputs(parsed).value;
    var city := Destination(parsed);
    assert forall i :: 0 <= i < |days| ==> DayFn(city)(days[i]) == EnrichDay(days[i], city);
    MapAllFailsAt(DayFn(city), days, k);
  }

  /** The plan's header: destination and duration default to "Tokyo" and 1,
      and the summary and image link are made from them. */
  lemma EnrichedHeader(parsed: Json)
    requires Enriched(parsed).Success?
    ensures ItineraryFields(parsed).Success?
    ensures var f := ItineraryFields(parsed).value;
      var plan := Enriched(parsed).value.plan;
      && (HasKey(f, "destination") ==> plan.destination == Lookup(f, "destination", JNull))
      && (!HasKey(f, "destination") ==> plan.destination == JStr("Tokyo"))
      && (HasKey(f, "duration") ==> plan.durationDays == Lookup(f, "duration", JNull))
      && (!HasKey(f, "duration") ==> plan.durationDays == JNum(1))
      && plan.summary == Str(plan.durationDays) + "-day cultural itinerary for " + Str(plan.destination)
      && plan.travelImage == "https://picsum.photos/seed/" + Str(plan.destination) + "/1200/800"
  {
    var f := ItineraryFields(parsed).value;
    if HasKey(f, "destination") { LookupIgnoresDefault(f, "destination", JNull, JStr("Tokyo")); }
    if HasKey(f, "duration") { LookupIgnoresDefault(f, "duration", JNull, JNum(1)); }
  }

  /** A document with no "itinerary" gives the default one-day plan for
      Tokyo with no days. */
  lemma EnrichedWithoutItinerary(parsed: Json)
    requires parsed.JObj? && !HasKey(parsed.fields, "itinerary")
    ensures Enriched(parsed) == Success(Itinerary("success", TravelPlan(
      JStr("Tokyo"), JNum(1), "1-day cultural itinerary for Tokyo",
      "https://picsum.photos/seed/Tokyo/1200/800", [])))
  {
    assert Lookup(parsed.fields, "itinerary", JObj([])) == JObj([]);
    assert ItineraryFields(parsed) == Success([]);
    assert MapAll(DayFn(JStr("Tokyo")), []) == Success([]);
    assert Enriched(parsed) == Success(Itinerary("success", TravelPlan(
      JStr("Tokyo"), JNum(1), Summary(JNum(1), JStr("Tokyo")), TravelImage(JStr("Tokyo")), [])));
    DefaultHeaderText();
  }

  /** The summary and image link of the default plan, spelled out. */
  lemma DefaultHeaderText()
    ensures Summary(JNum(1), JStr("Tokyo")) == "1-day cultural itinerary for Tokyo"
    ensures TravelImage(JStr("Tokyo")) == "https://picsum.photos/seed/Tokyo/1200/800"
  {
    assert Str(JNum(1)) == "1" by {
      assert NatToDecimal(1) == [DigitChar(1)];
      assert IntToDecimal(1) == NatToDecimal(1);
    }
    assert Str(JStr("Tokyo")) == "Tokyo";
    assert Summary(JNum(1), JStr("Tokyo")) == "1" + "-day cultural itinerary for " + "Tokyo";
    assert TravelImage(JStr("Tokyo")) == "https://picsum.photos/seed/" + "Tokyo" + "/1200/800";
  }

  /** An itinerary with no "days" gives a plan with no days. */
  lemma EnrichedWithoutDays(parsed: Json)
    requires ItineraryFields(parsed).Success?
    requires !HasKey(ItineraryFields(parsed).value, "days")
    ensures Enriched(parsed).Success?
    ensures Enriched(parsed).value.plan.days == []
  {
  }

  /** `enrich_with_maps`: walks the days and, within each, the activities,
      appending to the output as it goes; the first exception ends it. */
  method EnrichWithMaps(parsed: Json) returns (r: Result<Response, PyError>)
    ensures r == Enriched(parsed)
  {
    if !parsed.JObj? {
      return Failure(AttributeError(TypeName(parsed), "get"));
    }
    var itinerary := Lookup(parsed.fields, "itinerary", JObj([]));
    if !itinerary.JObj? {
      return Failure(AttributeError(TypeName(itinerary), "get"));
    }
    var city := Lookup(itinerary.fields, "destination", JStr("Tokyo"));
    var duration := Lookup(itinerary.fields, "duration", JNum(1));
    var imageUrl := "https://picsum.photos/seed/" + Str(city) + "/1200/800";
    var plan := TravelPlan(city, duration, Str(duration) + "-day cultural itinerary for " + Str(city), imageUrl, []);

    var dayValues := Iterate(Lookup(itinerary.fields, "days", JArr([])));
    if dayValues.Failure? {
      return Failure(dayValues.error);
    }
    var days := dayValues.value;
    var i := 0;
    while i < |days|
      invariant 0 <= i <= |days|
      invariant MapAll(DayFn(city), days[..i]) == Success(plan.days)
      invariant plan == TravelPlan(city, duration, Summary(duration, city), TravelImage(city), plan.days)
    {
      var day := days[i];
      var actValues := ActivityInputs(day);
      if actValues.Failure? {
        MapAllStopsAt(DayFn(city), days, i);
        return Failure(actValues.error);
      }
      var acts := actValues.value;
      var activities: seq<Activity> := [];
      var j := 0;
      while j < |acts|
        invariant 0 <= j <= |acts|
        invariant MapAll(ActivityFn(city), acts[..j]) == Success(activities)
      {
        var outcome := EnrichActivity(acts[j], city);
        assert outcome == ActivityFn(city)(acts[j]);
        if outcome.Failure? {
          MapAllStopsAt(ActivityFn(city), acts, j);
          MapAllStopsAt(DayFn(city), days, i);
          return Failure(outcome.error);
        }
        MapAllExtends(ActivityFn(city), acts, j, activities);
        activities := activities + [outcome.value];
        j := j + 1;
      }
      assert acts[..j] == acts;
      var enrichedDay := Day(Lookup(day.fields, "day", JNum(1)), Lookup(day.fields, "theme", JStr("Cultural day")), activities);
      assert DayFn(city)(day) == Success(enrichedDay);
      MapAllExtends(DayFn(city), days, i, plan.days);
      plan := plan.(days := plan.days + [enrichedDay]);
      i := i + 1;
    }
    assert days[..i] == days;
    r := Success(Itinerary("success", plan));
  }
}
