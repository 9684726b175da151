/** The API server's handlers over its key-value store: profiles, bookings,
    healers, wellness goals and the wishlist. The store is a map from key to
    JSON value; the caller's identity (what the auth service resolves the
    bearer token to), fresh ids and the current time are inputs. */
module Server {
  import opened Wrappers
  import opened Text
  import opened Lists
  import opened JsonValues

  // ----- keys ----------------------------------------------------------------

  const ProfilePrefix: string := "user_profile:"
  const BookingPrefix: string := "booking:"
  const UserBookingsPrefix: string := "user_bookings:"
  const HealerBookingsPrefix: string := "healer_bookings:"
  const GoalPrefix: string := "goal:"
  const UserGoalsPrefix: string := "user_goals:"
  const WishlistPrefix: string := "wishlist:"

  /** `kv.get(key)`: a missing key reads as `null`. */
  function Lookup(store: map<string, Json>, key: string): Json {
    if key in store then store[key] else JNull
  }

  /** Keys of two families whose prefixes differ at some position never meet. */
  lemma DistinctFamilies(p: string, q: string, a: string, b: string, k: nat)
    requires k < |p| && k < |q| && p[k] != q[k]
    ensures p + a != q + b
  {
    assert (p + a)[k] == p[k] && (q + b)[k] == q[k];
  }

  // ----- responses -------------------------------------------------------------

  datatype Response = Response(status: int, body: Json)

  /** `c.json({ error: message }, status)`. */
  function Failure(status: int, message: string): Response {
    Response(status, JObj(map["error" := JStr(message)]))
  }

  /** A handler's response together with the store it leaves behind. */
  datatype Reply = Reply(response: Response, store: map<string, Json>)

  /** `user?.id` is truthy. */
  predicate SignedIn(caller: Option<string>) {
    caller.Some? && caller.value != ""
  }

  /** `const list = await kv.get(key) || []; list.push(x); await kv.set(key, list)`:
      None when the stored value has no `push`. */
  function Append(store: map<string, Json>, key: string, x: Json): (r: Option<map<string, Json>>)
    ensures r.None? <==> PushTarget(Lookup(store, key)).None?
    ensures r.Some? ==> r.value == store[key := JArr(PushTarget(Lookup(store, key)).value + [x])]
  {
    match PushTarget(Lookup(store, key))
    case None => None
    case Some(list) => Some(store[key := JArr(list + [x])])
  }

  // ----- profiles --------------------------------------------------------------

  /** GET `/profile/:userId`. */
  function FetchProfile(store: map<string, Json>, userId: string): (r: Response)
    ensures r.status == 404 <==> !Truthy(Lookup(store, ProfilePrefix + userId))
    ensures r.status != 404 ==> r == Response(200, Lookup(store, ProfilePrefix + userId))
  {
    var profile := Lookup(store, ProfilePrefix + userId);
    if !Truthy(profile) then Failure(404, "Profile not found") else Response(200, profile)
  }

  predicate ProfileComplete(body: map<string, Json>) {
    Truthy(Prop(body, "id")) && Truthy(Prop(body, "email")) && Truthy(Prop(body, "name"))
  }

  /** The stored profile: the required fields as sent, the role defaulting
      to "user", no specialties yet, and both times stamped. */
  function NewProfile(body: map<string, Json>, now: string): (p: Json)
    ensures p.JObj?
    ensures Prop(p.fields, "id") == Prop(body, "id") && Prop(p.fields, "email") == Prop(body, "email")
    ensures Prop(p.fields, "name") == Prop(body, "name")
    ensures Prop(p.fields, "role") == (if Truthy(Prop(body, "role")) then Prop(body, "role") else JStr("user"))
    ensures Prop(p.fields, "specialties") == JArr([])
    ensures Prop(p.fields, "updated_at") == JStr(now)
  {
    JObj(map[
      "id" := Prop(body, "id"),
      "email" := Prop(body, "email"),
      "name" := Prop(body, "name"),
      "role" := Or(Prop(body, "role"), JStr("user")),
      "created_at" := Or(Prop(body, "created_at"), JStr(now)),
      "avatar_url" := JNull,
      "bio" := JNull,
      "specialties" := JArr([]),
      "experience" := JNull,
      "pricing" := JNull,
      "updated_at" := JStr(now)])
  }

  /** POST `/profile`: id, email and name are required; the role defaults to
      "user", specialties start empty, and the profile is stored under its id. */
  function CreateProfile(store: map<string, Json>, body: map<string, Json>, now: string): (r: Reply)
    ensures !ProfileComplete(body) <==> r.response.status == 400
    ensures !ProfileComplete(body) ==> r.store == store
    ensures ProfileComplete(body) ==>
      var p := r.response.body;
      && r.response.status == 200 && p.JObj?
      && r.store == store[ProfilePrefix + Str(Prop(body, "id")) := p]
      && Prop(p.fields, "id") == Prop(body, "id") && Prop(p.fields, "email") == Prop(body, "email")
      && Prop(p.fields, "name") == Prop(body, "name")
      && Prop(p.fields, "role") == (if Truthy(Prop(body, "role")) then Prop(body, "role") else JStr("user"))
      && Prop(p.fields, "specialties") == JArr([])
      && Prop(p.fields, "updated_at") == JStr(now)
  {
    if !ProfileComplete(body) then Reply(Failure(400, "Missing required fields"), store)
    else
      var profile := NewProfile(body, now);
      Reply(Response(200, profile), store[ProfilePrefix + Str(Prop(body, "id")) := profile])
  }

  /** PUT `/profile/:userId`: a missing profile is 404; otherwise the body is
      laid over the stored profile and the update time refreshed. */
  function UpdateProfile(store: map<string, Json>, userId: string, body: map<string, Json>, now: string): (r: Reply)
    ensures !Truthy(Lookup(store, ProfilePrefix + userId)) ==>
      r == Reply(Failure(404, "Profile not found"), store)
    ensures Truthy(Lookup(store, ProfilePrefix + userId)) ==>
      && r.response.status == 200
      && r.response.body == JObj(Merge(Lookup(store, ProfilePrefix + userId), body, "updated_at", JStr(now)))
      && r.store == store[ProfilePrefix + userId := r.response.body]
  {
    var key := ProfilePrefix + userId;
    var existing := Lookup(store, key);
    if !Truthy(existing) then Reply(Failure(404, "Profile not found"), store)
    else
      var updated := JObj(Merge(existing, body, "updated_at", JStr(now)));
      Reply(Response(200, updated), store[key := updated])
  }

  // ----- bookings --------------------------------------------------------------

  predicate BookingComplete(body: map<string, Json>) {
    && Truthy(Prop(body, "healer_id")) && Truthy(Prop(body, "service_type"))
    && Truthy(Prop(body, "date")) && Truthy(Prop(body, "time"))
  }

  function NewBooking(uid: string, body: map<string, Json>, id: string, now: string): Json {
    JObj(map[
      "id" := JStr(id),
      "user_id" := JStr(uid),
      "healer_id" := Prop(body, "healer_id"),
      "service_type" := Prop(body, "service_type"),
      "date" := Prop(body, "date"),
      "time" := Prop(body, "time"),
      "price" := Or(Prop(body, "price"), JStr("2500")),
      "status" := JStr("pending"),
      "notes" := Or(Prop(body, "notes"), JStr("")),
      "created_at" := JStr(now),
      "updated_at" := JStr(now)])
  }

  function HealerBookingsKey(body: map<string, Json>): string {
    HealerBookingsPrefix + Str(Prop(body, "healer_id"))
  }

  /** POST `/bookings`, with `id` standing for the random UUID. The booking is
      stored first, then its id is pushed onto the caller's list and then onto
      the healer's; a stored list that is not an array makes the push throw,
      which answers 500 with the earlier writes kept. */
  function CreateBooking(store: map<string, Json>, caller: Option<string>, body: map<string, Json>,
                         id: string, now: string): (r: Reply)
    ensures r.response.status == 401 <==> !SignedIn(caller)
    ensures r.response.status == 400 <==> SignedIn(caller) && !BookingComplete(body)
    ensures r.response.status in {400, 401} ==> r.store == store
    ensures r.response.status in {200, 400, 401, 500}
    ensures r.response.status == 200 <==>
      && SignedIn(caller) && BookingComplete(body)
      && PushTarget(Lookup(store, UserBookingsPrefix + caller.value)).Some?
      && PushTarget(Lookup(store, HealerBookingsKey(body))).Some?
    ensures r.response.status == 200 ==>
      var b := r.response.body;
      && SignedIn(caller) && BookingComplete(body) && b.JObj?
      && Prop(b.fields, "user_id") == JStr(caller.value)
      && Prop(b.fields, "status") == JStr("pending")
      && Prop(b.fields, "price") == (if Truthy(Prop(body, "price")) then Prop(body, "price") else JStr("2500"))
  {
    if !SignedIn(caller) then Reply(Failure(401, "Unauthorized"), store)
    else if !BookingComplete(body) then Reply(Failure(400, "Missing required booking information"), store)
    else
      var booking := NewBooking(caller.value, body, id, now);
      BookingFields(caller.value, body, id, now);
      SaveBooking(store, caller.value, HealerBookingsKey(body), booking, id)
  }

  /** The fields of a new booking that name its owner, status and price. */
  lemma BookingFields(uid: string, body: map<string, Json>, id: string, now: string)
    ensures var b := NewBooking(uid, body, id, now);
      && b.JObj?
      && Prop(b.fields, "user_id") == JStr(uid)
      && Prop(b.fields, "status") == JStr("pending")
      && Prop(b.fields, "price") == (if Truthy(Prop(body, "price")) then Prop(body, "price") else JStr("2500"))
  {
  }

  /** Storing a new booking and pushing its id onto the caller's list and then
      onto the healer's list; a list without `push` answers 500 and keeps the
      writes made before it. */
  function SaveBooking(store: map<string, Json>, uid: string, healerKey: string, booking: Json, id: string)
    : (r: Reply)
    requires HealerBookingsPrefix <= healerKey
    ensures r.response.status in {200, 500}
    ensures r.response.status == 200 <==>
      PushTarget(Lookup(store, UserBookingsPrefix + uid)).Some? && PushTarget(Lookup(store, healerKey)).Some?
    ensures r.response.status == 200 ==>
      && r.response.body == booking
      && r.store == store[BookingPrefix + id := booking]
                         [UserBookingsPrefix + uid := JArr(PushTarget(Lookup(store, UserBookingsPrefix + uid)).value + [JStr(id)])]
                         [healerKey := JArr(PushTarget(Lookup(store, healerKey)).value + [JStr(id)])]
  {
    var healerId := healerKey[|HealerBookingsPrefix|..];
    assert healerKey == HealerBookingsPrefix + healerId;
    DistinctFamilies(BookingPrefix, UserBookingsPrefix, id, uid, 0);
    DistinctFamilies(BookingPrefix, HealerBookingsPrefix, id, healerId, 0);
    DistinctFamilies(UserBookingsPrefix, HealerBookingsPrefix, uid, healerId, 0);
    var s1 := store[BookingPrefix + id := booking];
    match Append(s1, UserBookingsPrefix + uid, JStr(id))
    case None => Reply(Failure(500, "Failed to create booking"), s1)
    case Some(s2) =>
      match Append(s2, healerKey, JStr(id))
      case None => Reply(Failure(500, "Failed to create booking"), s2)
      case Some(s3) => Reply(Response(200, booking), s3)
  }

  /** A created booking is stored under its id, and its id ends both the
      caller's and the healer's booking lists, each of which is its old list
      plus that one id; no other key changes. */
  lemma BookingAppendsIds(store: map<string, Json>, caller: Option<string>, body: map<string, Json>,
                          id: string, now: string)
    requires CreateBooking(store, caller, body, id, now).response.status == 200
    ensures var r := CreateBooking(store, caller, body, id, now);
      var bk, uk, hk := BookingPrefix + id, UserBookingsPrefix + caller.value, HealerBookingsKey(body);
      && PushTarget(Lookup(store, uk)).Some? && PushTarget(Lookup(store, hk)).Some?
      && bk in r.store && r.store[bk] == r.response.body
      && uk in r.store && r.store[uk] == JArr(PushTarget(Lookup(store, uk)).value + [JStr(id)])
      && hk in r.store && r.store[hk] == JArr(PushTarget(Lookup(store, hk)).value + [JStr(id)])
      && r.store.Keys == store.Keys + {bk, uk, hk}
      && forall k :: k in store && k != bk && k != uk && k != hk ==> r.store[k] == store[k]
  {
    var uid := caller.value;
    var bk, uk, hk := BookingPrefix + id, UserBookingsPrefix + uid, HealerBookingsKey(body);
    DistinctFamilies(BookingPrefix, UserBookingsPrefix, id, uid, 0);
    DistinctFamilies(BookingPrefix, HealerBookingsPrefix, id, Str(Prop(body, "healer_id")), 0);
    DistinctFamilies(UserBookingsPrefix, HealerBookingsPrefix, uid, Str(Prop(body, "healer_id")), 0);
    var s1 := store[bk := NewBooking(uid, body, id, now)];
    assert Lookup(s1, uk) == Lookup(store, uk);
    var s2 := Append(s1, uk, JStr(id)).value;
    assert Lookup(s2, hk) == Lookup(store, hk);
  }

  // ----- listing a user's bookings and goals ---------------------------------

  /** What `kv.get(prefix + id)` gives for each listed id, in list order. */
  function Looked(store: map<string, Json>, prefix: string, ids: seq<Json>): (r: seq<Json>)
    ensures |r| == |ids| && forall i :: 0 <= i < |ids| ==> r[i] == Lookup(store, prefix + Str(ids[i]))
  {
    seq(|ids|, i requires 0 <= i < |ids| => Lookup(store, prefix + Str(ids[i])))
  }

  /** The loop `for (id of ids) { const v = await kv.get(prefix + id); if (v) found.push(v) }`:
      the stored values of the listed ids, in list order, skipping ids with
      nothing (truthy) stored. */
  function Collect(store: map<string, Json>, prefix: string, ids: seq<Json>): (r: seq<Json>)
    ensures |r| <= |ids|
    ensures forall i :: 0 <= i < |r| ==> Truthy(r[i])
    ensures IsSubsequence(r, Looked(store, prefix, ids))
    ensures forall j :: 0 <= j < |ids| && Truthy(Lookup(store, prefix + Str(ids[j]))) ==>
      Lookup(store, prefix + Str(ids[j])) in r
  {
    var looked := Looked(store, prefix, ids);
    FilterIsSubsequence(looked, Truthy);
    assert forall j :: 0 <= j < |ids| ==> looked[j] == Lookup(store, prefix + Str(ids[j]));
    Filter(looked, Truthy)
  }

  /** When every listed id has a stored value, the listing has one entry per
      id, in list order. */
  lemma CollectComplete(store: map<string, Json>, prefix: string, ids: seq<Json>)
    requires forall j :: 0 <= j < |ids| ==> Truthy(Lookup(store, prefix + Str(ids[j])))
    ensures Collect(store, prefix, ids) == Looked(store, prefix, ids)
  {
    FilterAll(Looked(store, prefix, ids), Truthy);
  }

  /** GET `/bookings/user/:userId`: a stored list that cannot be walked answers 500. */
  function BookingsOf(store: map<string, Json>, userId: string): (r: Response)
    ensures Iterated(Lookup(store, UserBookingsPrefix + userId)).None? <==> r.status == 500
    ensures r.status != 500 ==>
      r == Response(200, JArr(Collect(store, BookingPrefix, Iterated(Lookup(store, UserBookingsPrefix + userId)).value)))
  {
    match Iterated(Lookup(store, UserBookingsPrefix + userId))
    case None => Failure(500, "Failed to fetch bookings")
    case Some(ids) => Response(200, JArr(Collect(store, BookingPrefix, ids)))
  }

  /** GET `/goals/user/:userId`. */
  function GoalsOf(store: map<string, Json>, userId: string): (r: Response)
    ensures Iterated(Lookup(store, UserGoalsPrefix + userId)).None? <==> r.status == 500
    ensures r.status != 500 ==>
      r == Response(200, JArr(Collect(store, GoalPrefix, Iterated(Lookup(store, UserGoalsPrefix + userId)).value)))
  {
    match Iterated(Lookup(store, UserGoalsPrefix + userId))
    case None => Failure(500, "Failed to fetch goals")
    case Some(ids) => Response(200, JArr(Collect(store, GoalPrefix, ids)))
  }

  /** Every booking id on every user's list is a string naming a stored booking. */
  predicate ListedBookingsStored(store: map<string, Json>) {
    forall k :: k in store && UserBookingsPrefix <= k ==>
      && store[k].JArr?
      && forall i :: 0 <= i < |store[k].items| ==>
           store[k].items[i].JStr? && Truthy(Lookup(store, BookingPrefix + store[k].items[i].s))
  }

  /** While every listed booking is stored, a user's listing has one booking
      per listed id, in list order. */
  lemma ListingIsComplete(store: map<string, Json>, userId: string)
    requires ListedBookingsStored(store)
    ensures var listed := Iterated(Lookup(store, UserBookingsPrefix + userId));
      && listed.Some?
      && BookingsOf(store, userId) == Response(200, JArr(Looked(store, BookingPrefix, listed.value)))
  {
    var k := UserBookingsPrefix + userId;
    var ids := Iterated(Lookup(store, k)).value;
    forall j | 0 <= j < |ids| ensures Truthy(Lookup(store, BookingPrefix + Str(ids[j]))) {
      assert k in store && UserBookingsPrefix <= k;
    }
    CollectComplete(store, BookingPrefix, ids);
  }

  /** Creating a booking, even one that fails half-way, keeps every listed
      booking stored. */
  lemma BookingKeepsListsStored(store: map<string, Json>, caller: Option<string>, body: map<string, Json>,
                                id: string, now: string)
    requires ListedBookingsStored(store)
    ensures ListedBookingsStored(CreateBooking(store, caller, body, id, now).store)
  {
    if SignedIn(caller) && BookingComplete(body) {
      var uid := caller.value;
      var bk, uk, hk := BookingPrefix + id, UserBookingsPrefix + uid, HealerBookingsKey(body);
      var s1 := store[bk := NewBooking(uid, body, id, now)];
      WriteBookingKeepsStored(store, id, NewBooking(uid, body, id, now));
      match Append(s1, uk, JStr(id))
      case None =>
      case Some(s2) =>
        AppendBookingIdKeepsStored(s1, uid, id);
        WriteOutsideKeepsStored(s2, hk, Append(s2, hk, JStr(id)));
    }
  }

  /** Storing a truthy booking keeps every listed booking stored. */
  lemma WriteBookingKeepsStored(store: map<string, Json>, id: string, booking: Json)
    requires ListedBookingsStored(store) && Truthy(booking)
    ensures ListedBookingsStored(store[BookingPrefix + id := booking])
  {
    var s := store[BookingPrefix + id := booking];
    forall k | k in s && UserBookingsPrefix <= k
      ensures s[k].JArr? && forall i :: 0 <= i < |s[k].items| ==>
                s[k].items[i].JStr? && Truthy(Lookup(s, BookingPrefix + s[k].items[i].s))
    {
      DistinctFamilies(BookingPrefix, UserBookingsPrefix, id, k[|UserBookingsPrefix|..], 0);
      assert k == UserBookingsPrefix + k[|UserBookingsPrefix|..];
      assert k in store && s[k] == store[k];
      forall i | 0 <= i < |s[k].items|
        ensures s[k].items[i].JStr? && Truthy(Lookup(s, BookingPrefix + s[k].items[i].s))
      {
        assert Truthy(Lookup(store, BookingPrefix + store[k].items[i].s));
      }
    }
  }

  /** Pushing the id of a stored booking onto a user's list keeps every listed
      booking stored. */
  lemma AppendBookingIdKeepsStored(store: map<string, Json>, uid: string, id: string)
    requires ListedBookingsStored(store) && Truthy(Lookup(store, BookingPrefix + id))
    requires Append(store, UserBookingsPrefix + uid, JStr(id)).Some?
    ensures ListedBookingsStored(Append(store, UserBookingsPrefix + uid, JStr(id)).value)
  {
    var uk := UserBookingsPrefix + uid;
    var s := Append(store, uk, JStr(id)).value;
    forall k | k in s && UserBookingsPrefix <= k
      ensures s[k].JArr? && forall i :: 0 <= i < |s[k].items| ==>
                s[k].items[i].JStr? && Truthy(Lookup(s, BookingPrefix + s[k].items[i].s))
    {
      forall i | 0 <= i < |s[k].items|
        ensures s[k].items[i].JStr? && Truthy(Lookup(s, BookingPrefix + s[k].items[i].s))
      {
        var b := s[k].items[i];
        if k == uk {
          var old_ := PushTarget(Lookup(store, uk)).value;
          assert s[k].items == old_ + [JStr(id)];
          if i < |old_| {
            assert b == old_[i];
            if uk in store {
              assert Truthy(Lookup(store, BookingPrefix + store[uk].items[i].s));
            }
          }
        } else {
          assert Truthy(Lookup(store, BookingPrefix + store[k].items[i].s));
        }
        DistinctFamilies(BookingPrefix, UserBookingsPrefix, b.s, uid, 0);
      }
    }
  }

  /** A write to a key outside the booking and user-booking families keeps
      every listed booking stored. */
  lemma WriteOutsideKeepsStored(store: map<string, Json>, key: string, written: Option<map<string, Json>>)
    requires ListedBookingsStored(store) && HealerBookingsPrefix <= key
    requires written.Some? ==> key in written.value && written.value == store[key := written.value[key]]
    ensures written.Some? ==> ListedBookingsStored(written.value)
  {
    if written.Some? {
      var s := written.value;
      forall k | k in s && UserBookingsPrefix <= k
        ensures s[k].JArr? && forall i :: 0 <= i < |s[k].items| ==>
                  s[k].items[i].JStr? && Truthy(Lookup(s, BookingPrefix + s[k].items[i].s))
      {
        assert k != key by {
          assert k[0] == 'u' && key[0] == 'h';
        }
        forall i | 0 <= i < |s[k].items|
          ensures s[k].items[i].JStr? && Truthy(Lookup(s, BookingPrefix + s[k].items[i].s))
        {
          var n := BookingPrefix + store[k].items[i].s;
          assert Truthy(Lookup(store, n));
          assert n != key by {
            assert n[0] == 'b' && key[0] == 'h';
          }
        }
      }
    }
  }

  // ----- healers -------------------------------------------------------------

  /** `profile.role === 'healer'`. */
  predicate IsHealer(profile: Json) {
    profile.JObj? && Prop(profile.fields, "role") == JStr("healer")
  }

  /** GET `/healers` over the profiles `kv.getByPrefix('user_profile:')` gives:
      reading the role of a `null` profile throws (500); otherwise exactly the
      healer profiles, in the order given. */
  function HealerListing(profiles: seq<Json>): (r: Response)
    ensures r.status == 500 <==> JNull in profiles
    ensures r.status != 500 ==>
      && r.status == 200 && r.body.JArr?
      && (forall p :: p in r.body.items <==> p in profiles && IsHealer(p))
      && IsSubsequence(r.body.items, profiles)
  {
    if JNull in profiles then Failure(500, "Failed to fetch healers")
    else
      FilterIsSubsequence(profiles, IsHealer);
      Response(200, JArr(Filter(profiles, IsHealer)))
  }

  // ----- goals ---------------------------------------------------------------

  predicate GoalComplete(body: map<string, Json>) {
    Truthy(Prop(body, "goal")) && Truthy(Prop(body, "total"))
  }

  /** `parseInt(total)`; `NaN` is stored as `null`. */
  function TotalOf(total: Json): Json {
    match ParseInt(Str(total))
    case Some(n) => JNum(n)
    case None => JNull
  }

  /** A numeric total is stored as that number. */
  lemma NumericTotalKept(n: int)
    ensures TotalOf(JNum(n)) == JNum(n)
  {
    ParseIntOfDecimal(n);
  }

  /** The stored goal, given its trimmed text and its parsed total. */
  function NewGoalRecord(uid: string, text: string, total: Json, body: map<string, Json>,
                         id: string, now: string): Json
  {
    JObj(map[
      "id" := JStr(id),
      "user_id" := JStr(uid),
      "goal" := JStr(text),
      "progress" := JNum(0),
      "total" := total,
      "category" := Or(Prop(body, "category"), JStr("Personal")),
      "deadline" := Or(Prop(body, "deadline"), JNull),
      "color" := Or(Prop(body, "color"), JStr("neo-cyan")),
      "created_at" := JStr(now),
      "updated_at" := JStr(now)])
  }

  /** The goal POST `/goals` stores for a request whose goal is a string. */
  function GoalFor(uid: string, body: map<string, Json>, id: string, now: string): Json
    requires Prop(body, "goal").JStr?
  {
    NewGoalRecord(uid, Trim(Prop(body, "goal").s), TotalOf(Prop(body, "total")), body, id, now)
  }

  /** POST `/goals`, with `id` standing for the random UUID. A goal that is not
      a string has no `trim` and answers 500 before anything is written. */
  function CreateGoal(store: map<string, Json>, caller: Option<string>, body: map<string, Json>,
                      id: string, now: string): (r: Reply)
    ensures r.response.status == 401 <==> !SignedIn(caller)
    ensures r.response.status == 400 <==> SignedIn(caller) && !GoalComplete(body)
    ensures r.response.status in {400, 401} ==> r.store == store
    ensures r.response.status == 200 <==>
      && SignedIn(caller) && GoalComplete(body) && Prop(body, "goal").JStr?
      && PushTarget(Lookup(store, UserGoalsPrefix + caller.value)).Some?
    ensures r.response.status == 200 ==>
      && SignedIn(caller) && Prop(body, "goal").JStr?
      && r.response.body == GoalFor(caller.value, body, id, now)
      && GoalPrefix + id in r.store && r.store[GoalPrefix + id] == r.response.body
      && UserGoalsPrefix + caller.value in r.store
      && r.store[UserGoalsPrefix + caller.value]
         == JArr(PushTarget(Lookup(store, UserGoalsPrefix + caller.value)).value + [JStr(id)])
  {
    if !SignedIn(caller) then Reply(Failure(401, "Unauthorized"), store)
    else if !GoalComplete(body) then Reply(Failure(400, "Missing required goal information"), store)
    else if !Prop(body, "goal").JStr? then Reply(Failure(500, "Failed to create goal"), store)
    else
      var goal := GoalFor(caller.value, body, id, now);
      SaveGoal(store, caller.value, goal, id)
  }

  /** Storing a new goal and pushing its id onto the owner's goal list. */
  function SaveGoal(store: map<string, Json>, uid: string, goal: Json, id: string): (r: Reply)
    ensures r.response.status in {200, 500}
    ensures r.response.status == 200 <==> PushTarget(Lookup(store, UserGoalsPrefix + uid)).Some?
    ensures GoalPrefix + id in r.store && r.store[GoalPrefix + id] == goal
    ensures r.response.status == 200 ==>
      && r.response.body == goal
      && r.store == store[GoalPrefix + id := goal]
                         [UserGoalsPrefix + uid := JArr(PushTarget(Lookup(store, UserGoalsPrefix + uid)).value + [JStr(id)])]
    ensures r.response.status == 500 ==> r.store == store[GoalPrefix + id := goal]
    ensures r.response.status == 200 ==>
      UserGoalsPrefix + uid in r.store &&
      r.store[UserGoalsPrefix + uid] == JArr(PushTarget(Lookup(store, UserGoalsPrefix + uid)).value + [JStr(id)])
  {
    var s1 := store[GoalPrefix + id := goal];
    DistinctFamilies(GoalPrefix, UserGoalsPrefix, id, uid, 0);
    match Append(s1, UserGoalsPrefix + uid, JStr(id))
    case None => Reply(Failure(500, "Failed to create goal"), s1)
    case Some(s2) => Reply(Response(200, goal), s2)
  }

  /** A goal POST `/goals` accepts is listed afterwards by GET
      `/goals/user/:userId` for its owner. */
  lemma CreatedGoalIsListed(store: map<string, Json>, uid: string, body: map<string, Json>,
                            id: string, now: string)
    requires CreateGoal(store, Some(uid), body, id, now).response.status == 200
    ensures var r := CreateGoal(store, Some(uid), body, id, now);
      && GoalsOf(r.store, uid).status == 200
      && r.response.body in GoalsOf(r.store, uid).body.items
  {
    var r := CreateGoal(store, Some(uid), body, id, now);
    var ids := PushTarget(Lookup(store, UserGoalsPrefix + uid)).value + [JStr(id)];
    assert Lookup(r.store, UserGoalsPrefix + uid) == JArr(ids);
    var last := |ids| - 1;
    assert Str(ids[last]) == id;
    assert Lookup(r.store, GoalPrefix + Str(ids[last])) == r.response.body;
  }

  /** A new goal starts with no progress, the trimmed text and the caller as
      owner, and "Personal" and "neo-cyan" when no category or colour is given. */
  lemma NewGoalDefaults(uid: string, body: map<string, Json>, id: string, now: string)
    requires Prop(body, "goal").JStr?
    ensures var g := GoalFor(uid, body, id, now);
      && g.JObj?
      && Prop(g.fields, "user_id") == JStr(uid)
      && Prop(g.fields, "goal") == JStr(Trim(Prop(body, "goal").s))
      && Prop(g.fields, "progress") == JNum(0)
      && Prop(g.fields, "total") == TotalOf(Prop(body, "total"))
      && Prop(g.fields, "category") == (if Truthy(Prop(body, "category")) then Prop(body, "category") else JStr("Personal"))
      && Prop(g.fields, "color") == (if Truthy(Prop(body, "color")) then Prop(body, "color") else JStr("neo-cyan"))
  {
    var text, total := Trim(Prop(body, "goal").s), TotalOf(Prop(body, "total"));
    RecordFields(uid, text, total, body, id, now);
  }

  lemma RecordFields(uid: string, text: string, total: Json, body: map<string, Json>, id: string, now: string)
    ensures var g := NewGoalRecord(uid, text, total, body, id, now);
      && g.JObj?
      && Prop(g.fields, "user_id") == JStr(uid)
      && Prop(g.fields, "goal") == JStr(text)
      && Prop(g.fields, "progress") == JNum(0)
      && Prop(g.fields, "total") == total
      && Prop(g.fields, "category") == (if Truthy(Prop(body, "category")) then Prop(body, "category") else JStr("Personal"))
      && Prop(g.fields, "color") == (if Truthy(Prop(body, "color")) then Prop(body, "color") else JStr("neo-cyan"))
  {
  }

  /** `existingGoal.user_id`; a stored value that is not an object has none. */
  function OwnerOf(goal: Json): Json {
    if goal.JObj? then Prop(goal.fields, "user_id") else JNull
  }

  /** PUT `/goals/:goalId`: only the goal's owner may update it; anyone else,
      or a missing goal, gets 404 and the store is untouched. */
  function UpdateGoal(store: map<string, Json>, caller: Option<string>, goalId: string,
                      body: map<string, Json>, now: string): (r: Reply)
    ensures r.response.status == 401 <==> !SignedIn(caller)
    ensures r.response.status == 200 <==>
      SignedIn(caller) && Truthy(Lookup(store, GoalPrefix + goalId))
      && OwnerOf(Lookup(store, GoalPrefix + goalId)) == JStr(caller.value)
    ensures r.response.status != 200 ==> r.store == store
    ensures r.response.status == 200 ==>
      && r.response.body == JObj(Merge(Lookup(store, GoalPrefix + goalId), body, "updated_at", JStr(now)))
      && r.store == store[GoalPrefix + goalId := r.response.body]
  {
    if !SignedIn(caller) then Reply(Failure(401, "Unauthorized"), store)
    else
      var key := GoalPrefix + goalId;
      var existing := Lookup(store, key);
      if !Truthy(existing) || OwnerOf(existing) != JStr(caller.value) then
        Reply(Failure(404, "Goal not found or unauthorized"), store)
      else
        var updated := JObj(Merge(existing, body, "updated_at", JStr(now)));
        Reply(Response(200, updated), store[key := updated])
  }

  /** The owner check guards the write but not the body: an update may carry
      its own `user_id`, which then replaces the owner. */
  lemma UpdateMayReassignOwner(store: map<string, Json>, goalId: string, owner: string, other: string, now: string)
    requires owner != "" && owner != other
    requires Lookup(store, GoalPrefix + goalId) == JObj(map["user_id" := JStr(owner)])
    ensures var r := UpdateGoal(store, Some(owner), goalId, map["user_id" := JStr(other)], now);
      r.response.status == 200 && OwnerOf(r.store[GoalPrefix + goalId]) == JStr(other)
  {
  }

  // ----- wishlist ------------------------------------------------------------

  function WishlistBody(list: Json): Json {
    JObj(map["success" := JBool(true), "wishlist" := list])
  }

  /** POST `/wishlist`. The stored list (or a new empty one) gets the product id
      unless `includes` already finds it. A stored string answers `includes`
      by substring and has no `push`; other stored values have neither. */
  function AddToWishlist(store: map<string, Json>, caller: Option<string>, body: map<string, Json>): (r: Reply)
    ensures r.response.status == 401 <==> !SignedIn(caller)
    ensures r.response.status == 400 <==> SignedIn(caller) && !Truthy(Prop(body, "product_id"))
    ensures r.store != store ==>
      SignedIn(caller) &&
      var key := WishlistPrefix + caller.value;
      var list := PushTarget(Lookup(store, key));
      && list.Some? && !Includes(list.value, Prop(body, "product_id"))
      && r.store == store[key := JArr(list.value + [Prop(body, "product_id")])]
    ensures SignedIn(caller) && Truthy(Prop(body, "product_id")) ==>
      var key := WishlistPrefix + caller.value;
      var list := PushTarget(Lookup(store, key));
      var pid := Prop(body, "product_id");
      && (list.Some? && Includes(list.value, pid) ==>
            r == Reply(Response(200, WishlistBody(JArr(list.value))), store))
      && (list.Some? && !Includes(list.value, pid) ==>
            r == Reply(Response(200, WishlistBody(JArr(list.value + [pid]))), store[key := JArr(list.value + [pid])]))
      && (list.None? ==>
            r.store == store && (r.response.status == 200 <==> Lookup(store, key).JStr? && Contains(Lookup(store, key).s, Str(pid))))
  {
    if !SignedIn(caller) then Reply(Failure(401, "Unauthorized"), store)
    else
      var pid := Prop(body, "product_id");
      if !Truthy(pid) then Reply(Failure(400, "Product ID required"), store)
      else
        var key := WishlistPrefix + caller.value;
        var stored := Lookup(store, key);
        match PushTarget(stored)
        case Some(list) =>
          if Includes(list, pid) then Reply(Response(200, WishlistBody(JArr(list))), store)
          else
            var grown := list + [pid];
            Reply(Response(200, WishlistBody(JArr(grown))), store[key := JArr(grown)])
        case None =>
          if stored.JStr? && Contains(stored.s, Str(pid)) then Reply(Response(200, WishlistBody(stored)), store)
          else Reply(Failure(500, "Failed to add to wishlist"), store)
  }

  /** Adding a product that is a plain value (not an array or object) twice
      is adding it once. */
  lemma WishlistAddIdempotent(store: map<string, Json>, caller: Option<string>, body: map<string, Json>)
    requires !Prop(body, "product_id").JArr? && !Prop(body, "product_id").JObj?
    ensures var once := AddToWishlist(store, caller, body);
      AddToWishlist(once.store, caller, body) == once
  {
    var once := AddToWishlist(store, caller, body);
    if SignedIn(caller) && Truthy(Prop(body, "product_id")) {
      var pid := Prop(body, "product_id");
      var key := WishlistPrefix + caller.value;
      var list := PushTarget(Lookup(store, key));
      if list.Some? && !Includes(list.value, pid) {
        var grown := list.value + [pid];
        assert SameValueZero(grown[|list.value|], pid);
      }
    }
  }

  /** No two entries of the list are the same value for `includes`. */
  predicate DistinctEntries(list: seq<Json>) {
    forall i, j :: 0 <= i < j < |list| ==> !SameValueZero(list[i], list[j])
  }

  /** Adding keeps a stored wishlist free of duplicates. */
  lemma WishlistStaysDistinct(store: map<string, Json>, caller: Option<string>, body: map<string, Json>)
    requires SignedIn(caller)
    requires var stored := Lookup(store, WishlistPrefix + caller.value);
      stored.JArr? ==> DistinctEntries(stored.items)
    ensures var stored := Lookup(AddToWishlist(store, caller, body).store, WishlistPrefix + caller.value);
      stored.JArr? ==> DistinctEntries(stored.items)
  {
    var r := AddToWishlist(store, caller, body);
    var key := WishlistPrefix + caller.value;
    if r.store != store {
      var list := PushTarget(Lookup(store, key)).value;
      var grown := list + [Prop(body, "product_id")];
      assert r.store[key] == JArr(grown);
      forall i, j | 0 <= i < j < |grown| ensures !SameValueZero(grown[i], grown[j]) {
        if j == |list| {
          assert grown[i] == list[i];
        } else {
          assert grown[i] == list[i] && grown[j] == list[j];
        }
      }
    }
  }

  /** GET `/wishlist/:userId`. */
  function WishlistOf(store: map<string, Json>, userId: string): (r: Response)
    ensures r.status == 200
    ensures Truthy(Lookup(store, WishlistPrefix + userId)) ==> r.body == Lookup(store, WishlistPrefix + userId)
    ensures !Truthy(Lookup(store, WishlistPrefix + userId)) ==> r.body == JArr([])
  {
    Response(200, Or(Lookup(store, WishlistPrefix + userId), JArr([])))
  }

  // ----- the server ----------------------------------------------------------

  /** The server's store, which the handlers read and write step by step. */
  class Store {
    var kv: map<string, Json>

    constructor (initial: map<string, Json>)
      ensures kv == initial
    {
      kv := initial;
    }

    /** `kv.set(key, value)` after reading the list at `key`, pushing `x`. */
    method Push(key: string, x: Json) returns (pushed: bool)
      modifies this
      ensures pushed <==> Append(old(kv), key, x).Some?
      ensures pushed ==> kv == Append(old(kv), key, x).value
      ensures !pushed ==> kv == old(kv)
    {
      var list := PushTarget(Lookup(kv, key));
      if list.None? {
        return false;
      }
      kv := kv[key := JArr(list.value + [x])];
      pushed := true;
    }

    method PostProfile(body: map<string, Json>, now: string) returns (res: Response)
      modifies this
      ensures Reply(res, kv) == CreateProfile(old(kv), body, now)
    {
      if !ProfileComplete(body) {
        return Failure(400, "Missing required fields");
      }
      var profile := NewProfile(body, now);
      kv := kv[ProfilePrefix + Str(Prop(body, "id")) := profile];
      res := Response(200, profile);
    }

    method PutProfile(userId: string, body: map<string, Json>, now: string) returns (res: Response)
      modifies this
      ensures Reply(res, kv) == UpdateProfile(old(kv), userId, body, now)
    {
      var existing := Lookup(kv, ProfilePrefix + userId);
      if !Truthy(existing) {
        return Failure(404, "Profile not found");
      }
      var updated := JObj(Merge(existing, body, "updated_at", JStr(now)));
      kv := kv[ProfilePrefix + userId := updated];
      res := Response(200, updated);
    }

    method PostBooking(caller: Option<string>, body: map<string, Json>, id: string, now: string)
      returns (res: Response)
      modifies this
      ensures Reply(res, kv) == CreateBooking(old(kv), caller, body, id, now)
    {
      if !SignedIn(caller) {
        return Failure(401, "Unauthorized");
      }
      if !BookingComplete(body) {
        return Failure(400, "Missing required booking information");
      }
      var booking := NewBooking(caller.value, body, id, now);
      kv := kv[BookingPrefix + id := booking];
      var pushed := Push(UserBookingsPrefix + caller.value, JStr(id));
      if !pushed {
        return Failure(500, "Failed to create booking");
      }
      pushed := Push(HealerBookingsKey(body), JStr(id));
      if !pushed {
        return Failure(500, "Failed to create booking");
      }
      res := Response(200, booking);
    }

    /** The listing loop shared by the bookings and goals routes. */
    method CollectStored(prefix: string, ids: seq<Json>) returns (found: seq<Json>)
      ensures found == Collect(kv, prefix, ids)
    {
      found := [];
      var i := 0;
      while i < |ids|
        invariant 0 <= i <= |ids|
        invariant found == Filter(Looked(kv, prefix, ids[..i]), Truthy)
      {
        var v := Lookup(kv, prefix + Str(ids[i]));
        assert Looked(kv, prefix, ids[..i + 1]) == Looked(kv, prefix, ids[..i]) + [v];
        FilterAppend(Looked(kv, prefix, ids[..i]), v, Truthy);
        if Truthy(v) {
          found := found + [v];
        }
        i := i + 1;
      }
      assert ids[..i] == ids;
    }

    method GetUserBookings(userId: string) returns (res: Response)
      ensures res == BookingsOf(kv, userId)
    {
      var ids := Iterated(Lookup(kv, UserBookingsPrefix + userId));
      if ids.None? {
        return Failure(500, "Failed to fetch bookings");
      }
      var bookings := CollectStored(BookingPrefix, ids.value);
      res := Response(200, JArr(bookings));
    }

    method GetUserGoals(userId: string) returns (res: Response)
      ensures res == GoalsOf(kv, userId)
    {
      var ids := Iterated(Lookup(kv, UserGoalsPrefix + userId));
      if ids.None? {
        return Failure(500, "Failed to fetch goals");
      }
      var goals := CollectStored(GoalPrefix, ids.value);
      res := Response(200, JArr(goals));
    }

    /** The healer loop over the profiles the prefix scan returned. */
    method GetHealers(profiles: seq<Json>) returns (res: Response)
      ensures res == HealerListing(profiles)
    {
      var healers: seq<Json> := [];
      var i := 0;
      while i < |profiles|
        invariant 0 <= i <= |profiles|
        invariant JNull !in profiles[..i]
        invariant healers == Filter(profiles[..i], IsHealer)
      {
        var profile := profiles[i];
        if profile == JNull {
          return Failure(500, "Failed to fetch healers");
        }
        assert profiles[..i + 1] == profiles[..i] + [profile];
        FilterAppend(profiles[..i], profile, IsHealer);
        if IsHealer(profile) {
          healers := healers + [profile];
        }
        i := i + 1;
      }
      assert profiles[..i] == profiles;
      res := Response(200, JArr(healers));
    }

    method PostGoal(caller: Option<string>, body: map<string, Json>, id: string, now: string)
      returns (res: Response)
      modifies this
      ensures Reply(res, kv) == CreateGoal(old(kv), caller, body, id, now)
    {
      if !SignedIn(caller) {
        return Failure(401, "Unauthorized");
      }
      if !GoalComplete(body) {
        return Failure(400, "Missing required goal information");
      }
      if !Prop(body, "goal").JStr? {
        return Failure(500, "Failed to create goal");
      }
      var goal := GoalFor(caller.value, body, id, now);
      kv := kv[GoalPrefix + id := goal];
      var pushed := Push(UserGoalsPrefix + caller.value, JStr(id));
      if !pushed {
        return Failure(500, "Failed to create goal");
      }
      res := Response(200, goal);
    }

    method PutGoal(caller: Option<string>, goalId: string, body: map<string, Json>, now: string)
      returns (res: Response)
      modifies this
      ensures Reply(res, kv) == UpdateGoal(old(kv), caller, goalId, body, now)
    {
      if !SignedIn(caller) {
        return Failure(401, "Unauthorized");
      }
      var existing := Lookup(kv, GoalPrefix + goalId);
      if !Truthy(existing) || OwnerOf(existing) != JStr(caller.value) {
        return Failure(404, "Goal not found or unauthorized");
      }
      var updated := JObj(Merge(existing, body, "updated_at", JStr(now)));
      kv := kv[GoalPrefix + goalId := updated];
      res := Response(200, updated);
    }

    method PostWishlist(caller: Option<string>, body: map<string, Json>) returns (res: Response)
      modifies this
      ensures Reply(res, kv) == AddToWishlist(old(kv), caller, body)
    {
      if !SignedIn(caller) {
        return Failure(401, "Unauthorized");
      }
      var pid := Prop(body, "product_id");
      if !Truthy(pid) {
        return Failure(400, "Product ID required");
      }
      var key := WishlistPrefix + caller.value;
      var stored := Lookup(kv, key);
      var list := PushTarget(stored);
      if list.None? {
        if stored.JStr? && Contains(stored.s, Str(pid)) {
          return Response(200, WishlistBody(stored));
        }
        return Failure(500, "Failed to add to wishlist");
      }
      if Includes(list.value, pid) {
        return Response(200, WishlistBody(JArr(list.value)));
      }
      var grown := list.value + [pid];
      kv := kv[key := JArr(grown)];
      res := Response(200, WishlistBody(JArr(grown)));
    }
  }
}
