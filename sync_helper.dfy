/**
 * The page's background-sync coordinator (src/scripts/utils/sync-helper.js).
 *
 * `SyncHelper` drains the pending-stories queue of `DbHelper.DBHelper`: one
 * drain at a time (the `isSyncing` guard), stories in queue order, each
 * deleted only after its own upload succeeded, failures left in place and
 * counted, and every step announced to the registered listeners.
 *
 * The outside world is a set of parameters: `online` is `navigator.onLine`,
 * `storedToken` what `localStorage.getItem('auth_token')` returns, and
 * `server` the story API's answer to an upload (`None` when `fetch`
 * itself rejects). Whether a listener throws is `throws`.
 */
module BackgroundSync {
  import opened JsValues
  import opened ObjectStore
  import opened Base64
  import opened DbHelper

  const SYNC_TAG: string := "sync-stories"
  const DEFAULT_PHOTO_TYPE: string := "image/jpeg"
  const DEFAULT_PHOTO_NAME: string := "story.jpg"
  const NO_TOKEN_MESSAGE: string := "No authentication token"
  const PHOTO_MISSING_MESSAGE: string := "Photo data missing"
  const UPLOAD_FAILED_MESSAGE: string := "Upload failed"

  // ----- `split(',')[1]` -----

  /** `s.split(',')[1]`: the text between the first and the second comma; `undefined` without a comma. */
  function SecondPiece(s: string): (r: Value)
    ensures r == Undefined <==> ',' !in s
    ensures r.Str? ==> ',' !in r.s
  {
    match IndexOf(s, ',')
    case None => Undefined
    case Some(i) =>
      var rest := s[i + 1..];
      match IndexOf(rest, ',')
      case None => Str(rest)
      case Some(j) => Str(rest[..j])
  }

  lemma {:induction false} IndexOfFirst(p: string, c: char, t: string)
    requires c !in p
    ensures IndexOf(p + [c] + t, c) == Some(|p|)
    decreases |p|
  {
    if |p| != 0 {
      assert (p + [c] + t)[1..] == p[1..] + [c] + t;
      IndexOfFirst(p[1..], c, t);
    }
  }

  /** A data URL with one comma splits into its header and its payload. */
  lemma SecondPieceOfDataUrl(header: string, payload: string)
    requires ',' !in header && ',' !in payload
    ensures SecondPiece(header + "," + payload) == Str(payload)
  {
    IndexOfFirst(header, ',', payload);
    assert (header + "," + payload)[|header| + 1..] == payload;
  }

  // ----- the photo: data URL in, bytes out -----

  /** A picked photo file. `readable` is false when the FileReader fails on it. */
  datatype PhotoFile = PhotoFile(name: string, mimeType: string, bytes: seq<byte>, readable: bool)

  /** What `FileReader.readAsDataURL` produces for the file. */
  function DataUrl(file: PhotoFile): string {
    "data:" + file.mimeType + ";base64," + Encode(file.bytes)
  }

  lemma EncodeHasNoComma(b: seq<byte>)
    ensures ',' !in Encode(b)
  {
  }

  /** `atob`'s result as a string: one character per byte, its char code the byte. */
  function BinaryString(b: seq<byte>): (r: string)
    ensures |r| == |b|
    ensures forall i :: 0 <= i < |b| ==> r[i] as int == b[i] as int
  {
    seq(|b|, i requires 0 <= i < |b| => b[i] as int as char)
  }

  /** `s.charCodeAt(i)` of a binary string. */
  function CharCode(s: string, i: nat): (r: byte)
    requires i < |s| && s[i] as int < 256
    ensures r as int == s[i] as int
  {
    s[i] as int as byte
  }

  /** Why `_syncStory` rejected. */
  datatype SyncFailure =
    | NoToken                      // 'No authentication token'
    | DescriptionNotString         // `story.description.substring` throws a TypeError
    | PhotoMissing                 // 'Photo data missing'
    | PhotoNotString               // `base64.split` throws a TypeError
    | PhotoUndecodable             // `atob` throws an InvalidCharacterError
    | NetworkFailure               // `fetch` rejects
    | BodyNotJson                  // `response.json()` rejects
    | BodyNotObject                // `errorData.message` on a `null` body throws a TypeError
    | Rejected(message: string)    // the API refused: `errorData.message || 'Upload failed'`

  /** The message the code itself writes; the platform's TypeErrors and SyntaxErrors are not modelled. */
  function Message(f: SyncFailure): Option<string> {
    match f
    case NoToken => Some(NO_TOKEN_MESSAGE)
    case PhotoMissing => Some(PHOTO_MISSING_MESSAGE)
    case Rejected(m) => Some(m)
    case _ => None
  }

  /** The bytes `_base64ToBlob` decodes from `photoBase64`. */
  function PhotoBytes(photoBase64: Value): Result<seq<byte>, SyncFailure> {
    if !photoBase64.Str? then Err(PhotoNotString)
    else
      match Atob(ToJsString(SecondPiece(photoBase64.s)))
      case None => Err(PhotoUndecodable)
      case Some(b) => Ok(b)
  }

  datatype Blob = Blob(bytes: seq<byte>, mimeType: string)

  function PhotoBlob(photoBase64: Value, mimeType: string): Result<Blob, SyncFailure> {
    match PhotoBytes(photoBase64)
    case Err(e) => Err(e)
    case Ok(b) => Ok(Blob(b, mimeType))
  }

  /**
   * What a stored data URL decodes back to: the file's own bytes. Only the
   * text after the comma is decoded, and without a comma there is nothing
   * to decode (`atob(undefined)` is `atob("undefined")`, which throws).
   */
  lemma {:induction false} DataUrlRoundTrip(file: PhotoFile)
    requires ',' !in file.mimeType
    ensures PhotoBytes(Str(DataUrl(file))) == Ok(file.bytes)
  {
    var header := "data:" + file.mimeType + ";base64";
    forall i | 0 <= i < |header| ensures header[i] != ',' {
      if 5 <= i < 5 + |file.mimeType| {
        assert header[i] == file.mimeType[i - 5];
      }
    }
    assert DataUrl(file) == header + "," + Encode(file.bytes);
    EncodeHasNoComma(file.bytes);
    SecondPieceOfDataUrl(header, Encode(file.bytes));
    DecodeEncode(file.bytes);
  }

  lemma NoCommaNoPhoto(s: string)
    requires ',' !in s
    ensures PhotoBytes(Str(s)) == Err(PhotoUndecodable)
  {
    assert |"undefined"| % 4 == 1;
    assert StripWhitespace("undefined") == "undefined";
  }

  // ----- one upload -----

  /** `response.json()`: an object, or another JSON value. */
  datatype Json = JsonObject(fields: Record) | JsonPrimitive(v: Value)

  /** The API's answer: `response.ok`, and the body when it parses as JSON. */
  datatype Response = Response(ok: bool, body: Option<Json>)

  /** The multipart upload `_syncStory` posts, with its Authorization header. */
  datatype Upload = Upload(
    authorization: string,
    description: string,
    photo: Blob,
    photoName: string,
    location: Option<(string, string)>)

  /** `story.token || localStorage.getItem('auth_token')` */
  function SyncToken(story: Record, storedToken: Option<string>): Value {
    Or(Field(story, "token"), StoredValue(storedToken))
  }

  /** `lat` and `lon` go into the form only when both are truthy. */
  function Location(story: Record): Option<(string, string)> {
    var lat, lon := Field(story, "lat"), Field(story, "lon");
    if Truthy(lat) && Truthy(lon) then Some((ToJsString(lat), ToJsString(lon))) else None
  }

  /**
   * The checks `_syncStory` makes before it uploads, in their order: a
   * token, a string description, a photo, a decodable photo.
   */
  function UploadOf(story: Record, storedToken: Option<string>): (r: Result<Upload, SyncFailure>)
    ensures r == Err(NoToken) <==> !Truthy(SyncToken(story, storedToken))
    ensures r == Err(DescriptionNotString) <==> Truthy(SyncToken(story, storedToken)) && !Field(story, "description").Str?
    ensures r == Err(PhotoMissing) <==>
      Truthy(SyncToken(story, storedToken)) && Field(story, "description").Str? && !Truthy(Field(story, "photoBase64"))
    ensures r.Ok? ==> Truthy(Field(story, "photoBase64")) && Field(story, "description") == Str(r.value.description)
    ensures r.Ok? ==> (r.value.location.Some? <==> Truthy(Field(story, "lat")) && Truthy(Field(story, "lon")))
    ensures r.Ok? ==> Ok(r.value.photo.bytes) == PhotoBytes(Field(story, "photoBase64"))
  {
    var token := SyncToken(story, storedToken);
    var description := Field(story, "description");
    var photo := Field(story, "photoBase64");
    if !Truthy(token) then Err(NoToken)
    else if !description.Str? then Err(DescriptionNotString)
    else if !Truthy(photo) then Err(PhotoMissing)
    else
      match PhotoBlob(photo, ToJsString(Or(Field(story, "photoType"), Str(DEFAULT_PHOTO_TYPE))))
      case Err(e) => Err(e)
      case Ok(blob) =>
        Ok(Upload("Bearer " + ToJsString(token), description.s, blob,
                  ToJsString(Or(Field(story, "photoName"), Str(DEFAULT_PHOTO_NAME))), Location(story)))
  }

  /** The message of the error a refused upload throws, or `None` when reading it throws. */
  function RejectionMessage(body: Json): Option<string> {
    match body
    case JsonObject(fields) => Some(ToJsString(Or(Field(fields, "message"), Str(UPLOAD_FAILED_MESSAGE))))
    case JsonPrimitive(v) => if v == Null || v == Undefined then None else Some(UPLOAD_FAILED_MESSAGE)
  }

  /** How `_syncStory` settles once the request was sent. */
  function Answer(response: Option<Response>): (r: Result<Json, SyncFailure>)
    ensures r.Ok? <==> response.Some? && response.value.ok && response.value.body.Some?
    ensures r.Ok? ==> r.value == response.value.body.value
  {
    match response
    case None => Err(NetworkFailure)
    case Some(Response(ok, body)) =>
      match body
      case None => Err(BodyNotJson)
      case Some(json) =>
        if ok then Ok(json)
        else
          match RejectionMessage(json)
          case None => Err(BodyNotObject)
          case Some(m) => Err(Rejected(m))
  }

  /** `_syncStory(story)`: checks, then the upload. */
  function SyncOutcome(story: Record, storedToken: Option<string>, server: Upload -> Option<Response>): Result<Json, SyncFailure> {
    match UploadOf(story, storedToken)
    case Err(e) => Err(e)
    case Ok(u) => Answer(server(u))
  }

  /** How `_syncStory` settles, story by story. */
  type Syncer = Record -> Result<Json, SyncFailure>

  function SyncWith(storedToken: Option<string>, server: Upload -> Option<Response>): Syncer {
    (story: Record) => SyncOutcome(story, storedToken, server)
  }

  /** The stories whose sync succeeds. */
  function Uploaded(sync: Syncer): Record -> bool {
    (story: Record) => sync(story).Ok?
  }

  // ----- the offline story record -----

  /** `location?.lat || null` */
  function Coordinate(location: Option<Record>, name: string): Value {
    Or(if location.Some? then Field(location.value, name) else Undefined, Null)
  }

  /** The record `saveOfflineStory` hands to `addPendingStory`. */
  function OfflineStory(description: string, file: PhotoFile, location: Option<Record>,
                        storedToken: Option<string>, createdAt: string): Record {
    map[
      "description" := Str(description),
      "photoBase64" := Str(DataUrl(file)),
      "photoName" := Str(file.name),
      "photoSize" := Num(|file.bytes|),
      "photoType" := Str(file.mimeType),
      "lat" := Coordinate(location, "lat"),
      "lon" := Coordinate(location, "lon"),
      "token" := StoredValue(storedToken),
      "createdAt" := Str(createdAt),
      "status" := Str("pending")]
  }

  /**
   * A story saved offline and queued under key `keyGen` uploads later with
   * its description, the file's bytes, type and name, and its location
   * exactly when both coordinates were given and truthy; the token is the
   * one stored at save time, or else the one stored at sync time.
   */
  lemma SavedStoryUploads(description: string, file: PhotoFile, location: Option<Record>,
                          savedToken: Option<string>, createdAt: string, now: int, keyGen: int,
                          syncToken: Option<string>)
    requires Truthy(StoredValue(savedToken)) || Truthy(StoredValue(syncToken))
    requires ',' !in file.mimeType
    ensures var story := WithId(PendingRecord(OfflineStory(description, file, location, savedToken, createdAt), now), keyGen);
      var u := UploadOf(story, syncToken);
      && u.Ok?
      && u.value.description == description
      && u.value.photo.bytes == file.bytes
      && u.value.photo.mimeType == (if file.mimeType == "" then DEFAULT_PHOTO_TYPE else file.mimeType)
      && u.value.photoName == (if file.name == "" then DEFAULT_PHOTO_NAME else file.name)
      && (u.value.location.Some? <==> Truthy(Coordinate(location, "lat")) && Truthy(Coordinate(location, "lon")))
      && u.value.authorization == "Bearer " + (if Truthy(StoredValue(savedToken)) then savedToken.value else syncToken.value)
  {
    var data := OfflineStory(description, file, location, savedToken, createdAt);
    var story := WithId(PendingRecord(data, now), keyGen);
    OfflineStoryFields(description, file, location, savedToken, createdAt);
    StoredField(data, now, keyGen, "description");
    StoredField(data, now, keyGen, "photoBase64");
    StoredField(data, now, keyGen, "photoType");
    StoredField(data, now, keyGen, "photoName");
    StoredField(data, now, keyGen, "token");
    StoredField(data, now, keyGen, "lat");
    StoredField(data, now, keyGen, "lon");
    DataUrlRoundTrip(file);
    UploadOfSavedStory(story, syncToken, description, file, StoredValue(savedToken),
                       Coordinate(location, "lat"), Coordinate(location, "lon"));
  }

  lemma OfflineStoryFields(description: string, file: PhotoFile, location: Option<Record>,
                           storedToken: Option<string>, createdAt: string)
    ensures var data := OfflineStory(description, file, location, storedToken, createdAt);
      && "description" in data && data["description"] == Str(description)
      && "photoBase64" in data && data["photoBase64"] == Str(DataUrl(file))
      && "photoType" in data && data["photoType"] == Str(file.mimeType)
      && "photoName" in data && data["photoName"] == Str(file.name)
      && "token" in data && data["token"] == StoredValue(storedToken)
      && "lat" in data && data["lat"] == Coordinate(location, "lat")
      && "lon" in data && data["lon"] == Coordinate(location, "lon")
  {
  }

  lemma UploadOfSavedStory(story: Record, syncToken: Option<string>, description: string, file: PhotoFile,
                           token: Value, lat: Value, lon: Value)
    requires Truthy(token) || Truthy(StoredValue(syncToken))
    requires PhotoBytes(Str(DataUrl(file))) == Ok(file.bytes)
    requires Field(story, "description") == Str(description) && Field(story, "photoBase64") == Str(DataUrl(file))
    requires Field(story, "photoType") == Str(file.mimeType) && Field(story, "photoName") == Str(file.name)
    requires Field(story, "token") == token && Field(story, "lat") == lat && Field(story, "lon") == lon
    requires token == Null || token.Str?
    ensures var u := UploadOf(story, syncToken);
      && u.Ok?
      && u.value.description == description
      && u.value.photo.bytes == file.bytes
      && u.value.photo.mimeType == (if file.mimeType == "" then DEFAULT_PHOTO_TYPE else file.mimeType)
      && u.value.photoName == (if file.name == "" then DEFAULT_PHOTO_NAME else file.name)
      && (u.value.location.Some? <==> Truthy(lat) && Truthy(lon))
      && u.value.authorization == "Bearer " + (if Truthy(token) then token.s else syncToken.value)
  {
    assert Truthy(Str(DataUrl(file)));
  }

  /** Queueing a record keeps its own fields; only `id`, `timestamp` and `status` are written. */
  lemma StoredField(data: Record, now: int, keyGen: int, f: string)
    requires f in data && f != "id" && f != "timestamp" && f != "status"
    ensures Field(WithId(PendingRecord(data, now), keyGen), f) == data[f]
  {
  }

  // ----- events and listeners -----

  /** A registered callback, by identity. */
  datatype Callback = Callback(id: nat)

  /** The events `_notifyListeners` announces, with their data. */
  datatype Event =
    | SyncStarted                                                             // 'sync-start', {}
    | StorySynced(storyId: Value, success: bool, failure: Option<SyncFailure>) // 'story-synced'
    | SyncCompleted(total: nat, succeeded: nat, failed: nat)                  // 'sync-complete'
    | SyncErrored(cause: DbError)                                             // 'sync-error'

  function EventName(e: Event): string {
    match e
    case SyncStarted => "sync-start"
    case StorySynced(_, _, _) => "story-synced"
    case SyncCompleted(_, _, _) => "sync-complete"
    case SyncErrored(_) => "sync-error"
  }

  /** One listener invocation, and whether it threw. */
  datatype Call = Call(callback: Callback, event: Event, threw: bool)

  /** The invocations one `_notifyListeners(e)` makes: every listener, in registration order. */
  function Calls(callbacks: seq<Callback>, e: Event, throws: (Callback, Event) -> bool): (r: seq<Call>)
    ensures |r| == |callbacks|
    decreases |callbacks|
  {
    if |callbacks| == 0 then []
    else Calls(callbacks[..|callbacks| - 1], e, throws) + [Call(callbacks[|callbacks| - 1], e, throws(callbacks[|callbacks| - 1], e))]
  }

  /**
   * One announcement reaches every listener, in registration order, each
   * exactly once, whether or not an earlier one threw.
   */
  lemma {:induction false} CallsAt(callbacks: seq<Callback>, e: Event, throws: (Callback, Event) -> bool, i: nat)
    requires i < |callbacks|
    ensures Calls(callbacks, e, throws)[i] == Call(callbacks[i], e, throws(callbacks[i], e))
    decreases |callbacks|
  {
    var n := |callbacks| - 1;
    if i < n {
      CallsAt(callbacks[..n], e, throws, i);
    }
  }

  /** The invocations a run of announcements makes, with the listeners fixed. */
  function CallsAll(callbacks: seq<Callback>, es: seq<Event>, throws: (Callback, Event) -> bool): seq<Call>
    decreases |es|
  {
    if |es| == 0 then []
    else CallsAll(callbacks, es[..|es| - 1], throws) + Calls(callbacks, es[|es| - 1], throws)
  }

  lemma {:induction false} CallsAllConcat(callbacks: seq<Callback>, a: seq<Event>, b: seq<Event>, throws: (Callback, Event) -> bool)
    ensures CallsAll(callbacks, a + b, throws) == CallsAll(callbacks, a, throws) + CallsAll(callbacks, b, throws)
    decreases |b|
  {
    if |b| != 0 {
      var b' := b[..|b| - 1];
      assert (a + b)[..|a + b| - 1] == a + b';
      CallsAllConcat(callbacks, a, b', throws);
    } else {
      assert a + b == a;
    }
  }

  lemma CallsAllOne(callbacks: seq<Callback>, e: Event, throws: (Callback, Event) -> bool)
    ensures CallsAll(callbacks, [e], throws) == Calls(callbacks, e, throws)
  {
    assert [e][..0] == [];
  }

  /** `listeners.filter(cb => cb !== callback)` */
  function Without(callbacks: seq<Callback>, cb: Callback): (r: seq<Callback>)
    ensures cb !in r
    ensures forall other :: other != cb ==> multiset(r)[other] == multiset(callbacks)[other]
    decreases |callbacks|
  {
    if |callbacks| == 0 then []
    else if callbacks[0] == cb then
      assert callbacks == [callbacks[0]] + callbacks[1..];
      Without(callbacks[1..], cb)
    else
      assert callbacks == [callbacks[0]] + callbacks[1..];
      [callbacks[0]] + Without(callbacks[1..], cb)
  }

  /** Unsubscribing keeps the other listeners in their registration order. */
  lemma {:induction false} WithoutConcat(a: seq<Callback>, b: seq<Callback>, cb: Callback)
    ensures Without(a + b, cb) == Without(a, cb) + Without(b, cb)
    decreases |a|
  {
    if |a| != 0 {
      assert (a + b)[1..] == a[1..] + b;
      WithoutConcat(a[1..], b, cb);
    } else {
      assert a + b == b;
    }
  }

  /** Subscribing a new callback and then calling its unsubscribe function restores the listeners. */
  lemma {:induction false} SubscribeThenUnsubscribe(callbacks: seq<Callback>, cb: Callback)
    requires cb !in callbacks
    ensures Without(callbacks + [cb], cb) == callbacks
    decreases |callbacks|
  {
    WithoutConcat(callbacks, [cb], cb);
    WithoutAbsent(callbacks, cb);
    assert Without([cb], cb) == [];
  }

  lemma {:induction false} WithoutAbsent(callbacks: seq<Callback>, cb: Callback)
    requires cb !in callbacks
    ensures Without(callbacks, cb) == callbacks
    decreases |callbacks|
  {
    if |callbacks| != 0 {
      WithoutAbsent(callbacks[1..], cb);
      assert callbacks == [callbacks[0]] + callbacks[1..];
    }
  }

  // ----- the drain -----

  /** The `story-synced` event for one story. */
  function StoryEvent(story: Record, sync: Syncer): Event {
    match sync(story)
    case Ok(_) => StorySynced(Field(story, "id"), true, None)
    case Err(e) => StorySynced(Field(story, "id"), false, Some(e))
  }

  /** The `story-synced` events of a drain: one per story, in queue order. */
  function StoryEvents(stories: seq<Record>, sync: Syncer): (r: seq<Event>)
    ensures |r| == |stories|
    decreases |stories|
  {
    if |stories| == 0 then []
    else
      var n := |stories| - 1;
      StoryEvents(stories[..n], sync) + [StoryEvent(stories[n], sync)]
  }

  /** The i-th `story-synced` event is the i-th queued story's. */
  lemma {:induction false} StoryEventsAt(stories: seq<Record>, sync: Syncer, i: nat)
    requires i < |stories|
    ensures StoryEvents(stories, sync)[i] == StoryEvent(stories[i], sync)
    decreases |stories|
  {
    var n := |stories| - 1;
    if i < n {
      StoryEventsAt(stories[..n], sync, i);
    }
  }

  /** How many of the stories upload. */
  function Successes(stories: seq<Record>, sync: Syncer): nat
    decreases |stories|
  {
    if |stories| == 0 then 0
    else
      var n := |stories| - 1;
      Successes(stories[..n], sync) + (if sync(stories[n]).Ok? then 1 else 0)
  }

  /** How many of the stories fail. */
  function Failures(stories: seq<Record>, sync: Syncer): nat
    decreases |stories|
  {
    if |stories| == 0 then 0
    else
      var n := |stories| - 1;
      Failures(stories[..n], sync) + (if sync(stories[n]).Ok? then 0 else 1)
  }

  /** Every story is counted once: `success + failed == total`. */
  lemma {:induction false} CountsAddUp(stories: seq<Record>, sync: Syncer)
    ensures Successes(stories, sync) + Failures(stories, sync) == |stories|
    decreases |stories|
  {
    if |stories| != 0 {
      CountsAddUp(stories[..|stories| - 1], sync);
    }
  }

  /** A `story-synced` event that reports success. */
  predicate Succeeded(e: Event) {
    e.StorySynced? && e.success
  }

  /** The success count is the number of `story-synced` events that report success. */
  lemma {:induction false} SuccessesAreSuccessEvents(stories: seq<Record>, sync: Syncer)
    ensures Successes(stories, sync)
         == |set i | 0 <= i < |stories| && Succeeded(StoryEvents(stories, sync)[i])|
    decreases |stories|
  {
    var es := StoryEvents(stories, sync);
    var all := set i | 0 <= i < |stories| && Succeeded(es[i]);
    if |stories| != 0 {
      var n := |stories| - 1;
      var prefix := stories[..n];
      SuccessesAreSuccessEvents(prefix, sync);
      var es' := StoryEvents(prefix, sync);
      assert es == es' + [StoryEvent(stories[n], sync)];
      var before := set i | 0 <= i < n && Succeeded(es'[i]);
      assert n !in before;
      if Succeeded(es[n]) {
        assert all == before + {n};
      } else {
        assert all == before;
      }
    } else {
      assert all == {};
    }
  }

  /** What a drain that reached the queue announces after `sync-start`. */
  function DrainEvents(stories: seq<Record>, sync: Syncer): seq<Event> {
    if |stories| == 0 then []
    else StoryEvents(stories, sync)
         + [SyncCompleted(|stories|, Successes(stories, sync), Failures(stories, sync))]
  }

  /**
   * Everything `manualSync` announces once it started: `sync-start`, then
   * `sync-error` when the queue could not be read, or else the drain's events.
   */
  function SyncEvents(queue: Result<seq<Record>, DbError>, sync: Syncer): seq<Event> {
    [SyncStarted] + AfterStart(queue, sync)
  }

  /** What follows `sync-start`: `sync-error`, or the drain's events. */
  function AfterStart(queue: Result<seq<Record>, DbError>, sync: Syncer): seq<Event> {
    match queue
    case Err(e) => [SyncErrored(e)]
    case Ok(stories) => DrainEvents(stories, sync)
  }

  /**
   * An empty queue announces `sync-start` alone; a non-empty one a
   * `story-synced` per story in queue order and then one `sync-complete`
   * whose `total` is the queue length and whose `success` and `failed` add up to it.
   */
  lemma {:induction false} SyncEventsShape(stories: seq<Record>, sync: Syncer)
    ensures var es := SyncEvents(Ok(stories), sync);
      && es[0] == SyncStarted
      && (|stories| == 0 ==> es == [SyncStarted])
      && (|stories| > 0 ==>
            && |es| == |stories| + 2
            && (forall i :: 0 <= i < |stories| ==> es[i + 1] == StoryEvent(stories[i], sync))
            && es[|es| - 1].SyncCompleted?
            && es[|es| - 1].total == |stories|
            && es[|es| - 1].succeeded + es[|es| - 1].failed == |stories|)
      && (forall i :: 0 <= i < |es| ==> !es[i].SyncErrored?)
  {
    CountsAddUp(stories, sync);
    var es := SyncEvents(Ok(stories), sync);
    if |stories| > 0 {
      var se := StoryEvents(stories, sync);
      forall i | 0 <= i < |stories| ensures es[i + 1] == StoryEvent(stories[i], sync) {
        StoryEventsAt(stories, sync, i);
      }
      forall i | 0 <= i < |es| ensures !es[i].SyncErrored? {
        if 0 < i <= |stories| { StoryEventsAt(stories, sync, i - 1); }
      }
    }
  }

  class SyncHelper {
    const store: DBHelper
    /** Whether a listener call throws (the listener's own code). */
    const throws: (Callback, Event) -> bool
    /** `this.isSyncing` */
    var isSyncing: bool
    /** `this.listeners`, in registration order. */
    var listeners: seq<Callback>
    /** Every `_notifyListeners(event, data)` so far, in order. */
    var events: seq<Event>
    /** Every listener invocation so far, in order. */
    var calls: seq<Call>
    /** The background-sync tags registered with the service worker. */
    var registeredTags: seq<string>
    /** `manualSync` calls scheduled with `setTimeout` and not yet fired. */
    var scheduledSyncs: nat

    ghost predicate Valid()
      reads this, store, store.backend
    {
      store.Valid()
    }

    constructor (store: DBHelper, throws: (Callback, Event) -> bool)
      requires store.Valid()
      ensures Valid() && this.store == store && this.throws == throws
      ensures !isSyncing && listeners == [] && events == [] && calls == [] && registeredTags == [] && scheduledSyncs == 0
    {
      this.store := store;
      this.throws := throws;
      isSyncing := false;
      listeners, events, calls, registeredTags, scheduledSyncs := [], [], [], [], 0;
    }

    /** `onSyncEvent(callback)`; the function it returns is `Unsubscribe(callback)`. */
    method OnSyncEvent(cb: Callback)
      modifies this`listeners
      ensures listeners == old(listeners) + [cb]
    {
      listeners := listeners + [cb];
    }

    /** The unsubscribe function `onSyncEvent` returns: drops every registration of `cb`. */
    method Unsubscribe(cb: Callback)
      modifies this`listeners
      ensures listeners == Without(old(listeners), cb)
    {
      listeners := Without(listeners, cb);
    }

    /** `_notifyListeners(event, data)`: call every listener in order; a throw is caught and the loop goes on. */
    method Notify(e: Event)
      modifies this`events, this`calls
      ensures events == old(events) + [e]
      ensures calls == old(calls) + CallsAll(listeners, [e], throws)
    {
      events := events + [e];
      for i := 0 to |listeners|
        invariant events == old(events) + [e]
        invariant calls == old(calls) + Calls(listeners[..i], e, throws)
      {
        assert listeners[..i + 1][..i] == listeners[..i];
        calls := calls + [Call(listeners[i], e, throws(listeners[i], e))];
      }
      assert listeners[..|listeners|] == listeners;
      CallsAllOne(listeners, e, throws);
    }

    /** `_syncStory(story)`: the checks, the photo decoded to bytes, the upload. */
    method SyncStory(story: Record, storedToken: Option<string>, server: Upload -> Option<Response>) returns (r: Result<Json, SyncFailure>)
      ensures r == SyncOutcome(story, storedToken, server)
    {
      var token := SyncToken(story, storedToken);
      if !Truthy(token) {
        return Err(NoToken);
      }
      var description := Field(story, "description");
      if !description.Str? {
        return Err(DescriptionNotString);
      }
      var photo := Field(story, "photoBase64");
      if !Truthy(photo) {
        return Err(PhotoMissing);
      }
      var blob := Base64ToBlob(photo, ToJsString(Or(Field(story, "photoType"), Str(DEFAULT_PHOTO_TYPE))));
      if blob.Err? {
        return Err(blob.error);
      }
      var upload := Upload("Bearer " + ToJsString(token), description.s, blob.value,
                           ToJsString(Or(Field(story, "photoName"), Str(DEFAULT_PHOTO_NAME))), Location(story));
      r := Answer(server(upload));
    }

    /**
     * `_base64ToBlob(base64, mimeType)`: decode the text after the first
     * comma and copy the binary string's char codes into a byte array.
     */
    method Base64ToBlob(base64: Value, mimeType: string) returns (r: Result<Blob, SyncFailure>)
      ensures r == PhotoBlob(base64, mimeType)
    {
      if !base64.Str? {
        return Err(PhotoNotString);
      }
      var decoded := Atob(ToJsString(SecondPiece(base64.s)));
      if decoded.None? {
        return Err(PhotoUndecodable);
      }
      var byteString := BinaryString(decoded.value);
      var ia := new byte[|byteString|];
      for i := 0 to |byteString|
        invariant ia[..i] == decoded.value[..i]
      {
        ia[i] := CharCode(byteString, i);
      }
      assert ia[..] == decoded.value by {
        assert ia[..] == ia[..|byteString|] && decoded.value == decoded.value[..|byteString|];
      }
      assert PhotoBytes(base64) == Ok(decoded.value);
      return Ok(Blob(ia[..], mimeType));
    }

    /**
     * What `manualSync` did: nothing while a drain runs or offline;
     * otherwise what `SyncRan` says.
     */
    twostate predicate ManualSyncDone(online: bool, storedToken: Option<string>, server: Upload -> Option<Response>)
      requires old(store.Valid())
      reads this, store, store.backend
    {
      if old(isSyncing) || !online then
        unchanged(this) && unchanged(store) && unchanged(store.backend)
      else
        !isSyncing && SyncRan(storedToken, server)
    }

    /**
     * A sync ran: it announced `SyncEvents` of the queue it read, deleted
     * exactly the stories that uploaded.
     */
    twostate predicate SyncRan(storedToken: Option<string>, server: Upload -> Option<Response>)
      requires old(store.Valid())
      reads this, store, store.backend
    {
      && unchanged(this`listeners, this`registeredTags, this`scheduledSyncs)
      && unchanged(store.backend`keyGen, store.backend`cached, store.backend`appState)
      && var queue := old(store.PendingRead());
         && events == old(events) + SyncEvents(queue, SyncWith(storedToken, server))
         && calls == old(calls) + CallsAll(listeners, SyncEvents(queue, SyncWith(storedToken, server)), throws)
         && (old(store.OpenError()).Some? ==> store.OpenFailed())
         && (old(store.OpenError()).None? ==> store.Opened())
         && (queue.Err? ==> unchanged(store.backend`pending))
         && (queue.Ok? ==>
               ToMap(store.backend.pending) == KeepRejected(old(ToMap(store.backend.pending)), Uploaded(SyncWith(storedToken, server))))
    }

    /** `manualSync()` */
    method ManualSync(online: bool, storedToken: Option<string>, server: Upload -> Option<Response>)
      requires Valid()
      modifies this, store, store.backend
      ensures Valid()
      ensures ManualSyncDone(online, storedToken, server)
    {
      if isSyncing {
        return;
      }
      if !online {
        return;
      }
      isSyncing := true;
      RunSync(storedToken, server);
      isSyncing := false;
    }

    /** The `try` block of `manualSync`: announce the start, read the queue, drain it. */
    method RunSync(storedToken: Option<string>, server: Upload -> Option<Response>)
      requires Valid()
      modifies this`events, this`calls, store, store.backend
      ensures Valid()
      ensures SyncRan(storedToken, server)
    {
      ghost var queue := store.PendingRead();
      Notify(SyncStarted);
      assert store.PendingRead() == queue;
      var all := store.GetAllPendingStories();
      assert all == queue;
      ghost var events0, calls0 := events, calls;
      Conclude(all, storedToken, server);
      AnnouncedInOrder(old(events), old(calls), listeners, throws, AfterStart(all, SyncWith(storedToken, server)),
                       events0, calls0, events, calls);
    }

    /**
     * The rest of `manualSync` once the queue was read: `sync-error` when
     * reading failed; nothing more for an empty queue; otherwise the drain
     * and then `sync-complete` with its counts.
     */
    method Conclude(all: Result<seq<Record>, DbError>, storedToken: Option<string>, server: Upload -> Option<Response>)
      requires Valid()
      requires all.Ok? ==> store.db != null && PENDING_STORIES in store.backend.schema && all.value == Values(store.backend.pending)
      modifies this`events, this`calls, store, store.backend
      ensures Valid() && store.db == old(store.db)
      ensures unchanged(store.backend`keyGen, store.backend`cached, store.backend`appState,
                        store.backend`schema, store.backend`version, store.backend`available)
      ensures all.Err? ==> unchanged(store.backend)
      ensures all.Ok? ==> ToMap(store.backend.pending) == KeepRejected(old(ToMap(store.backend.pending)), Uploaded(SyncWith(storedToken, server)))
      ensures events == old(events) + AfterStart(all, SyncWith(storedToken, server))
      ensures calls == old(calls) + CallsAll(listeners, AfterStart(all, SyncWith(storedToken, server)), throws)
    {
      if all.Err? {
        Notify(SyncErrored(all.error));
        return;
      }
      var stories := all.value;
      if |stories| == 0 {
        assert store.backend.pending == [];
        return;
      }
      var successCount, failCount := DrainQueue(stories, store.backend.pending, storedToken, server);
      Notify(SyncCompleted(|stories|, successCount, failCount));
      ghost var se := StoryEvents(stories, SyncWith(storedToken, server));
      ghost var done := SyncCompleted(|stories|, successCount, failCount);
      CallsAllConcat(listeners, se, [done], throws);
      ConcatAssoc(old(calls), CallsAll(listeners, se, throws), CallsAll(listeners, [done], throws));
    }

    /** The loop of `manualSync`: sync each story, delete it when that succeeded, announce the outcome. */
    method DrainQueue(stories: seq<Record>, ghost entries: seq<Entry<Record>>,
                      storedToken: Option<string>, server: Upload -> Option<Response>)
      returns (successCount: nat, failCount: nat)
      requires Valid() && store.db != null && PENDING_STORIES in store.backend.schema
      requires store.backend.pending == entries && stories == Values(entries)
      modifies this`events, this`calls, store, store.backend
      ensures Valid() && store.db == old(store.db)
      ensures unchanged(store.backend`keyGen, store.backend`cached, store.backend`appState,
                        store.backend`schema, store.backend`version, store.backend`available)
      ensures ToMap(store.backend.pending) == KeepRejected(ToMap(entries), Uploaded(SyncWith(storedToken, server)))
      ensures events == old(events) + StoryEvents(stories, SyncWith(storedToken, server))
      ensures calls == old(calls) + CallsAll(listeners, StoryEvents(stories, SyncWith(storedToken, server)), throws)
      ensures successCount == Successes(stories, SyncWith(storedToken, server))
      ensures failCount == Failures(stories, SyncWith(storedToken, server))
    {
      ghost var sync := SyncWith(storedToken, server);
      ghost var uploaded := Uploaded(sync);
      successCount, failCount := 0, 0;
      for i := 0 to |stories|
        invariant Valid() && store.db == old(store.db)
        invariant unchanged(store.backend`keyGen, store.backend`cached, store.backend`appState,
                            store.backend`schema, store.backend`version, store.backend`available)
        invariant ToMap(store.backend.pending) == ToMap(entries) - AcceptedKeys(entries[..i], uploaded)
        invariant events == old(events) + StoryEvents(stories[..i], sync)
        invariant calls == old(calls) + CallsAll(listeners, StoryEvents(stories[..i], sync), throws)
        invariant successCount == Successes(stories[..i], sync)
        invariant failCount == Failures(stories[..i], sync)
      {
        QueuedStoryKey(entries, i);
        ghost var pending0, events0, calls0 := ToMap(store.backend.pending), events, calls;
        var ok := SyncOne(stories[i], entries[i].key, storedToken, server);
        UploadedIs(sync, stories[i]);
        DrainMapStep(entries, uploaded, i, pending0, ToMap(store.backend.pending), ok);
        DrainLogStep(old(events), old(calls), stories, i, sync, listeners, throws, events0, calls0, events, calls,
                     ok, successCount, failCount);
        if ok {
          successCount := successCount + 1;
        } else {
          failCount := failCount + 1;
        }
      }
      assert stories[..|stories|] == stories;
      assert entries[..|stories|] == entries;
      RemovingAcceptedKeepsRejected(entries, uploaded);
    }

    /** One turn of the loop: sync the story; on success delete it by its id; announce the outcome. */
    method SyncOne(story: Record, ghost key: Key, storedToken: Option<string>, server: Upload -> Option<Response>)
      returns (ok: bool)
      requires Valid() && store.db != null && PENDING_STORIES in store.backend.schema
      requires ToKey(Field(story, "id")) == Some(key)
      modifies this`events, this`calls, store, store.backend
      ensures Valid() && store.db == old(store.db)
      ensures unchanged(store.backend`keyGen, store.backend`cached, store.backend`appState,
                        store.backend`schema, store.backend`version, store.backend`available)
      ensures ok == SyncWith(storedToken, server)(story).Ok?
      ensures ToMap(store.backend.pending) == if ok then old(ToMap(store.backend.pending)) - {key} else old(ToMap(store.backend.pending))
      ensures events == old(events) + [StoryEvent(story, SyncWith(storedToken, server))]
      ensures calls == old(calls) + CallsAll(listeners, [StoryEvent(story, SyncWith(storedToken, server))], throws)
    {
      var result := SyncStory(story, storedToken, server);
      UploadedWith(storedToken, server, story);
      var id := Field(story, "id");
      if result.Ok? {
        var _ := store.DeletePendingStory(id);
        Notify(StorySynced(id, true, None));
        return true;
      } else {
        Notify(StorySynced(id, false, Some(result.error)));
        return false;
      }
    }

    /**
     * `registerSync(tag)`: register the tag with the service worker when
     * Background Sync is supported and registration succeeds; otherwise
     * fall back to `manualSync`.
     */
    method RegisterSync(tag: string, supported: bool, registers: bool,
                        online: bool, storedToken: Option<string>, server: Upload -> Option<Response>)
      returns (registered: bool)
      requires Valid()
      modifies this, store, store.backend
      ensures Valid()
      ensures registered == (supported && registers)
      ensures registered ==>
        registeredTags == old(registeredTags) + [tag]
        && unchanged(this`isSyncing, this`listeners, this`events, this`calls, this`scheduledSyncs)
        && unchanged(store) && unchanged(store.backend)
      ensures !registered ==> ManualSyncDone(online, storedToken, server)
    {
      if !supported {
        ManualSync(online, storedToken, server);
        return false;
      }
      if !registers {
        ManualSync(online, storedToken, server);
        return false;
      }
      registeredTags := registeredTags + [tag];
      return true;
    }

    /**
     * `saveOfflineStory(description, photoFile, location)`: read the photo
     * as a data URL, queue the story, then schedule a sync in two seconds
     * when online or register background sync when offline. Any failure
     * before the story is queued rejects, and nothing is scheduled.
     */
    method SaveOfflineStory(description: string, photo: PhotoFile, location: Option<Record>,
                            storedToken: Option<string>, createdAt: string, now: int,
                            online: bool, supported: bool, registers: bool)
      returns (r: Result<Key, SaveError>)
      requires Valid()
      modifies this, store, store.backend
      ensures Valid()
      ensures !photo.readable ==> r == Err(FileReadFailed) && unchanged(this) && unchanged(store) && unchanged(store.backend)
      ensures photo.readable ==> r != Err(FileReadFailed)
      ensures photo.readable ==>
        store.PendingAdded(OfflineStory(description, photo, location, storedToken, createdAt), now, StorageResult(r))
      ensures photo.readable ==>
        unchanged(this`isSyncing, this`listeners, this`events, this`calls)
        && scheduledSyncs == old(scheduledSyncs) + (if r.Ok? && online then 1 else 0)
        && registeredTags == old(registeredTags) + (if r.Ok? && !online && supported && registers then [SYNC_TAG] else [])
    {
      if !photo.readable {
        return Err(FileReadFailed);
      }
      var storyData := OfflineStory(description, photo, location, storedToken, createdAt);
      var id := store.AddPendingStory(storyData, now);
      if id.Err? {
        return Err(Storage(id.error));
      }
      if online {
        scheduledSyncs := scheduledSyncs + 1;
      } else {
        var _ := RegisterSync(SYNC_TAG, supported, registers, online, storedToken, (u: Upload) => None);
      }
      return Ok(id.value);
    }
  }

  /** Why `saveOfflineStory` rejected. */
  datatype SaveError = FileReadFailed | Storage(error: DbError)

  function StorageResult(r: Result<Key, SaveError>): Result<Key, DbError>
    requires r.Ok? || r.error.Storage?
  {
    if r.Ok? then Ok(r.value) else Err(r.error.error)
  }

  lemma UploadedIs(sync: Syncer, story: Record)
    ensures Uploaded(sync)(story) == sync(story).Ok?
  {
  }

  lemma UploadedWith(storedToken: Option<string>, server: Upload -> Option<Response>, story: Record)
    ensures Uploaded(SyncWith(storedToken, server))(story) == SyncOutcome(story, storedToken, server).Ok?
    ensures SyncWith(storedToken, server)(story) == SyncOutcome(story, storedToken, server)
  {
  }

  /** `sync-start` and then the rest reach the listeners as one run of announcements. */
  lemma AnnouncedInOrder(events0: seq<Event>, calls0: seq<Call>, callbacks: seq<Callback>, throws: (Callback, Event) -> bool,
                         rest: seq<Event>, eventsMid: seq<Event>, callsMid: seq<Call>, eventsEnd: seq<Event>, callsEnd: seq<Call>)
    requires eventsMid == events0 + [SyncStarted]
    requires callsMid == calls0 + CallsAll(callbacks, [SyncStarted], throws)
    requires eventsEnd == eventsMid + rest
    requires callsEnd == callsMid + CallsAll(callbacks, rest, throws)
    ensures eventsEnd == events0 + ([SyncStarted] + rest)
    ensures callsEnd == calls0 + CallsAll(callbacks, [SyncStarted] + rest, throws)
  {
    ConcatAssoc(events0, [SyncStarted], rest);
    CallsAllConcat(callbacks, [SyncStarted], rest, throws);
    ConcatAssoc(calls0, CallsAll(callbacks, [SyncStarted], throws), CallsAll(callbacks, rest, throws));
  }

  /** One turn of the drain announces that story's outcome to every listener. */
  lemma DrainLogStep(events0: seq<Event>, calls0: seq<Call>, stories: seq<Record>, i: nat, sync: Syncer,
                     callbacks: seq<Callback>, throws: (Callback, Event) -> bool,
                     eventsBefore: seq<Event>, callsBefore: seq<Call>, eventsAfter: seq<Event>, callsAfter: seq<Call>,
                     ok: bool, succeeded: nat, failed: nat)
    requires i < |stories|
    requires ok == sync(stories[i]).Ok?
    requires succeeded == Successes(stories[..i], sync) && failed == Failures(stories[..i], sync)
    requires eventsBefore == events0 + StoryEvents(stories[..i], sync)
    requires callsBefore == calls0 + CallsAll(callbacks, StoryEvents(stories[..i], sync), throws)
    requires eventsAfter == eventsBefore + [StoryEvent(stories[i], sync)]
    requires callsAfter == callsBefore + CallsAll(callbacks, [StoryEvent(stories[i], sync)], throws)
    ensures eventsAfter == events0 + StoryEvents(stories[..i + 1], sync)
    ensures callsAfter == calls0 + CallsAll(callbacks, StoryEvents(stories[..i + 1], sync), throws)
    ensures succeeded + (if ok then 1 else 0) == Successes(stories[..i + 1], sync)
    ensures failed + (if ok then 0 else 1) == Failures(stories[..i + 1], sync)
  {
    DrainStep(stories, i, sync);
    var ev := StoryEvent(stories[i], sync);
    ConcatAssoc(events0, StoryEvents(stories[..i], sync), [ev]);
    CallsAllConcat(callbacks, StoryEvents(stories[..i], sync), [ev], throws);
    ConcatAssoc(calls0, CallsAll(callbacks, StoryEvents(stories[..i], sync), throws), CallsAll(callbacks, [ev], throws));
  }

  /** One more story: the drain's events and counts grow by that story's. */
  lemma DrainStep(stories: seq<Record>, i: nat, sync: Syncer)
    requires i < |stories|
    ensures StoryEvents(stories[..i + 1], sync)
         == StoryEvents(stories[..i], sync) + [StoryEvent(stories[i], sync)]
    ensures Successes(stories[..i + 1], sync)
         == Successes(stories[..i], sync) + (if sync(stories[i]).Ok? then 1 else 0)
    ensures Failures(stories[..i + 1], sync)
         == Failures(stories[..i], sync) + (if sync(stories[i]).Ok? then 0 else 1)
  {
    assert stories[..i + 1][..i] == stories[..i];
  }
}
