/**
 * An abstract versioned object store standing in for the one S3 bucket the
 * manager uses: each key maps to the non-empty sequence of its versions,
 * oldest first; every client call is counted; and a schedule of anomalies
 * lets any numbered call fail the way the SDK can (a service error, a
 * client-side error, or a null reply).
 */
module ObjectStore {
  import opened Lang
  import opened Exceptions

  /** S3 ObjectMetadata: user metadata, content type and content length (0 when unset). */
  datatype ObjectMetadata = ObjectMetadata(userMetadata: map<string, string>, contentType: Option<string>, contentLength: Int64)

  /** `new ObjectMetadata()`. */
  const EmptyMetadata := ObjectMetadata(map[], None, 0)

  /** `addUserMetadata(key, value)`; a null value is indistinguishable from an absent one when read back. */
  function AddUserMetadata(md: ObjectMetadata, key: string, value: Option<string>): (r: ObjectMetadata)
    ensures UserMetadataOf(r, key) == value
    ensures forall k :: k != key ==> UserMetadataOf(r, k) == UserMetadataOf(md, k)
    ensures r.contentType == md.contentType && r.contentLength == md.contentLength
  {
    if value.Some? then md.(userMetadata := md.userMetadata[key := value.value])
    else md.(userMetadata := md.userMetadata - {key})
  }

  /** `getUserMetaDataOf(key)`: null when the key is absent. */
  function UserMetadataOf(md: ObjectMetadata, key: string): Option<string>
  {
    if key in md.userMetadata then Some(md.userMetadata[key]) else None
  }

  datatype Version = Version(versionId: nat, metadata: ObjectMetadata, content: Stream)

  datatype S3Object = S3Object(key: string, metadata: ObjectMetadata, content: Stream)

  datatype PutObjectResult = PutObjectResult(versionId: nat, metadata: Option<ObjectMetadata>)

  datatype VersionSummary = VersionSummary(key: string, versionId: nat)

  /** A listing reply whose list of summaries may itself be null. */
  datatype Listing<T> = Listing(summaries: Option<seq<T>>)

  /** How a scheduled call departs from a plain reply. */
  datatype Anomaly =
    | ServiceFault  // the call throws AmazonServiceException
    | ClientFault   // the call throws SdkClientException
    | NullResult    // the call returns null
    | NullListing   // a listing call returns a reply whose summaries are null
    | ReplyMetadata(replied: ObjectMetadata)  // a put reply carries this metadata

  /** The largest number of keys one listObjectsV2 reply carries. */
  const MAX_KEYS: nat := 1000

  datatype StoreState = StoreState(
    objects: map<string, seq<Version>>,
    order: seq<string>,           // the keys in listing order
    nextVersionId: nat,
    calls: nat,                   // the number of client calls made so far
    faults: map<nat, Anomaly>)    // the anomaly of the call with that number, if any

  predicate NoDuplicates(s: seq<string>)
  {
    forall i, j :: 0 <= i < j < |s| ==> s[i] != s[j]
  }

  /** Every stored key has at least one version and is listed exactly once. */
  ghost predicate ValidState(st: StoreState)
  {
    && (forall key :: key in st.objects ==> |st.objects[key]| > 0)
    && NoDuplicates(st.order)
    && (forall key :: key in st.objects <==> key in st.order)
  }

  function Tick(st: StoreState): StoreState
  {
    st.(calls := st.calls + 1)
  }

  /** The anomaly scheduled for the call about to be made. */
  function Scheduled(st: StoreState): Option<Anomaly>
  {
    if st.calls in st.faults then Some(st.faults[st.calls]) else None
  }

  /** The exception the call about to be made throws, if it is scheduled to throw. */
  function ScheduledException(st: StoreState): Option<Throwable>
  {
    match Scheduled(st)
    case Some(ServiceFault) => Some(AmazonService)
    case Some(ClientFault) => Some(SdkClient)
    case _ => None
  }

  predicate ScheduledNull(st: StoreState)
  {
    Scheduled(st) == Some(NullResult)
  }

  /** The metadata a put reply carries: none, as for a bare `new PutObjectResult()`, unless the schedule gives some. */
  function ScheduledReplyMetadata(st: StoreState): Option<ObjectMetadata>
  {
    match Scheduled(st)
    case Some(ReplyMetadata(md)) => Some(md)
    case _ => None
  }

  function Latest(vs: seq<Version>): Version
    requires |vs| > 0
  {
    vs[|vs| - 1]
  }

  /** `getObjectMetadata(bucket, key)`: the newest version's metadata, null when the key is absent. */
  function MetadataStep(st: StoreState, key: Option<string>): (r: (StoreState, Outcome<Option<ObjectMetadata>>))
    requires ValidState(st)
    ensures r.0 == Tick(st)
    ensures r.1.Normal? && r.1.value.Some? ==>
      key.Some? && key.value in st.objects && r.1.value.value == Latest(st.objects[key.value]).metadata
    ensures key.Some? && ScheduledException(st).None? && !ScheduledNull(st) ==>
      r.1 == Normal(if key.value in st.objects then Some(Latest(st.objects[key.value]).metadata) else None)
  {
    (Tick(st),
      if key.None? then Thrown(IllegalArgument)
      else if ScheduledException(st).Some? then Thrown(ScheduledException(st).value)
      else if ScheduledNull(st) || key.value !in st.objects then Normal(None)
      else Normal(Some(Latest(st.objects[key.value]).metadata)))
  }

  /** `getObject(bucket, key)`: the newest version with its content, null when the key is absent. */
  function ObjectStep(st: StoreState, key: Option<string>): (r: (StoreState, Outcome<Option<S3Object>>))
    requires ValidState(st)
    ensures r.0 == Tick(st)
    ensures r.1.Normal? && r.1.value.Some? ==>
      key.Some? && key.value in st.objects && r.1.value.value.key == key.value &&
      r.1.value.value.content == Latest(st.objects[key.value]).content &&
      r.1.value.value.metadata == Latest(st.objects[key.value]).metadata
  {
    (Tick(st),
      if key.None? then Thrown(IllegalArgument)
      else if ScheduledException(st).Some? then Thrown(ScheduledException(st).value)
      else if ScheduledNull(st) || key.value !in st.objects then Normal(None)
      else
        var v := Latest(st.objects[key.value]);
        Normal(Some(S3Object(key.value, v.metadata, v.content))))
  }

  /** The state after storing a new newest version of `key`. */
  function StoreVersion(st: StoreState, key: string, content: Stream, md: ObjectMetadata): StoreState
  {
    var previous := if key in st.objects then st.objects[key] else [];
    st.(objects := st.objects[key := previous + [Version(st.nextVersionId, md, content)]],
        order := if key in st.objects then st.order else st.order + [key],
        nextVersionId := st.nextVersionId + 1)
  }

  /**
   * `putObject(bucket, key, input, metadata)`: a new newest version for
   * `key`, listed after the existing keys when the key is new. The reply
   * carries the new version's identifier and the metadata the schedule
   * gives it, if any; a scheduled null reply still stores the version.
   */
  function PutStep(st: StoreState, key: Option<string>, content: Option<Stream>, md: ObjectMetadata)
    : (r: (StoreState, Outcome<Option<PutObjectResult>>))
    requires ValidState(st)
    ensures r.0.calls == st.calls + 1 && r.0.faults == st.faults
    ensures r.1.Thrown? ==> r.0 == Tick(st)
    ensures r.1.Normal? && r.1.value.Some? ==> r.1.value.value == PutObjectResult(st.nextVersionId, ScheduledReplyMetadata(st))
  {
    if key.None? || content.None? then (Tick(st), Thrown(IllegalArgument))
    else if ScheduledException(st).Some? then (Tick(st), Thrown(ScheduledException(st).value))
    else
      var stored := StoreVersion(Tick(st), key.value, content.value, md);
      (stored, Normal(if ScheduledNull(st) then None else Some(PutObjectResult(st.nextVersionId, ScheduledReplyMetadata(st)))))
  }

  function Without(s: seq<string>, x: string): (r: seq<string>)
    ensures forall y :: y in r <==> y in s && y != x
    ensures |r| <= |s|
  {
    if s == [] then [] else if s[0] == x then Without(s[1..], x) else [s[0]] + Without(s[1..], x)
  }

  /** The state after removing `key` and all its versions. */
  function RemoveKey(st: StoreState, key: string): StoreState
  {
    st.(objects := st.objects - {key}, order := Without(st.order, key))
  }

  /** `deleteObject(bucket, key)`: removes the key; deleting an absent key succeeds and changes nothing else. */
  function DeleteStep(st: StoreState, key: Option<string>): (r: (StoreState, Outcome<()>))
    requires ValidState(st)
    ensures r.0.calls == st.calls + 1 && r.0.faults == st.faults
    ensures r.1.Thrown? ==> r.0 == Tick(st)
  {
    if key.None? then (Tick(st), Thrown(IllegalArgument))
    else if ScheduledException(st).Some? then (Tick(st), Thrown(ScheduledException(st).value))
    else (RemoveKey(Tick(st), key.value), Normal(()))
  }

  function Take<T>(s: seq<T>, n: nat): (r: seq<T>)
    ensures |r| == if |s| <= n then |s| else n
    ensures r == s[..|r|]
  {
    if |s| <= n then s else s[..n]
  }

  /** `listObjectsV2(request)` for a request without a continuation token: the first MAX_KEYS keys. */
  function ListObjectsStep(st: StoreState): (r: (StoreState, Outcome<Option<Listing<string>>>))
    requires ValidState(st)
    ensures r.0 == Tick(st)
    ensures ScheduledException(st).None? && Scheduled(st) !in {Some(NullResult), Some(NullListing)} ==>
      r.1 == Normal(Some(Listing(Some(Take(st.order, MAX_KEYS)))))
  {
    (Tick(st),
      if ScheduledException(st).Some? then Thrown(ScheduledException(st).value)
      else if ScheduledNull(st) then Normal(None)
      else if Scheduled(st) == Some(NullListing) then Normal(Some(Listing(None)))
      else Normal(Some(Listing(Some(Take(st.order, MAX_KEYS))))))
  }

  /** The summaries listed for the versions of one key, oldest first. */
  function Summaries(key: string, vs: seq<Version>): seq<VersionSummary>
  {
    seq(|vs|, i requires 0 <= i < |vs| => VersionSummary(key, vs[i].versionId))
  }

  /** A key a listing with this prefix includes; a null prefix includes every key. */
  predicate MatchesPrefix(key: string, prefix: Option<string>)
  {
    prefix.None? || StartsWith(key, prefix.value)
  }

  /** Every version of every key in `keys` matching the prefix, key by key in listing order. */
  function VersionsWithPrefix(objects: map<string, seq<Version>>, keys: seq<string>, prefix: Option<string>)
    : seq<VersionSummary>
  {
    if keys == [] then []
    else
      var key := keys[|keys| - 1];
      VersionsWithPrefix(objects, keys[..|keys| - 1], prefix) +
      (if MatchesPrefix(key, prefix) && key in objects then Summaries(key, objects[key]) else [])
  }

  /** `listVersions(request)` with a prefix and a maximum number of results. */
  function ListVersionsStep(st: StoreState, prefix: Option<string>, maxResults: nat)
    : (r: (StoreState, Outcome<Option<Listing<VersionSummary>>>))
    requires ValidState(st)
    ensures r.0 == Tick(st)
    ensures ScheduledException(st).None? && Scheduled(st) !in {Some(NullResult), Some(NullListing)} ==>
      r.1 == Normal(Some(Listing(Some(Take(VersionsWithPrefix(st.objects, st.order, prefix), maxResults)))))
  {
    (Tick(st),
      if ScheduledException(st).Some? then Thrown(ScheduledException(st).value)
      else if ScheduledNull(st) then Normal(None)
      else if Scheduled(st) == Some(NullListing) then Normal(Some(Listing(None)))
      else Normal(Some(Listing(Some(Take(VersionsWithPrefix(st.objects, st.order, prefix), maxResults))))))
  }

  // ----- properties of the store -----

  /** Storing a version keeps every key listed once with at least one version. */
  lemma StoreVersionValid(st: StoreState, key: string, content: Stream, md: ObjectMetadata)
    requires ValidState(st)
    ensures ValidState(StoreVersion(st, key, content, md))
  {
    var st' := StoreVersion(st, key, content, md);
    if key !in st.objects {
      assert key !in st.order;
      forall i, j | 0 <= i < j < |st'.order|
        ensures st'.order[i] != st'.order[j]
      {
        if j == |st.order| {
          assert st'.order[i] == st.order[i];
        }
      }
    }
  }

  lemma {:induction false} WithoutNoDuplicates(s: seq<string>, x: string)
    requires NoDuplicates(s)
    ensures NoDuplicates(Without(s, x))
  {
    if s != [] {
      assert NoDuplicates(s[1..]) by {
        forall i, j | 0 <= i < j < |s[1..]| ensures s[1..][i] != s[1..][j] {
          assert s[1..][i] == s[i + 1] && s[1..][j] == s[j + 1];
        }
      }
      WithoutNoDuplicates(s[1..], x);
      if s[0] != x {
        var r := Without(s, x);
        assert s[0] !in s[1..];
        assert r == [s[0]] + Without(s[1..], x);
        forall i, j | 0 <= i < j < |r| ensures r[i] != r[j] {
          if i == 0 {
            assert r[j] in Without(s[1..], x);
          } else {
            assert r[i] == Without(s[1..], x)[i - 1] && r[j] == Without(s[1..], x)[j - 1];
          }
        }
      }
    }
  }

  /** A put keeps the store well formed, whether or not it stores anything. */
  lemma PutPreservesValid(st: StoreState, key: Option<string>, content: Option<Stream>, md: ObjectMetadata)
    requires ValidState(st)
    ensures ValidState(PutStep(st, key, content, md).0)
  {
    if key.Some? && content.Some? {
      StoreVersionValid(Tick(st), key.value, content.value, md);
    }
  }

  /** A delete keeps the store well formed. */
  lemma DeletePreservesValid(st: StoreState, key: Option<string>)
    requires ValidState(st)
    ensures ValidState(DeleteStep(st, key).0)
  {
    if key.Some? {
      WithoutNoDuplicates(st.order, key.value);
    }
  }

  /** A successful put is what the next metadata lookup of the key returns. */
  lemma PutThenMetadata(st: StoreState, key: string, content: Stream, md: ObjectMetadata)
    requires ValidState(st)
    requires ScheduledException(st).None?
    ensures var st1 := PutStep(st, Some(key), Some(content), md).0;
      ValidState(st1) &&
      (ScheduledException(st1).None? && !ScheduledNull(st1) ==>
        MetadataStep(st1, Some(key)).1 == Normal(Some(md)))
  {
    PutPreservesValid(st, Some(key), Some(content), md);
  }

  /** After a successful delete the key is gone: its metadata lookup returns null. */
  lemma DeleteThenMetadata(st: StoreState, key: string)
    requires ValidState(st)
    requires ScheduledException(st).None?
    ensures var st1 := DeleteStep(st, Some(key)).0;
      ValidState(st1) && key !in st1.objects && key !in st1.order &&
      (ScheduledException(st1).None? ==> MetadataStep(st1, Some(key)).1 == Normal(None))
  {
    DeletePreservesValid(st, Some(key));
  }

  /** A put of a key no other key starts with adds exactly one version to its prefix listing, at the end. */
  lemma PutAddsOneVersion(st: StoreState, key: string, content: Stream, md: ObjectMetadata)
    requires ValidState(st)
    requires forall k :: k in st.objects && k != key ==> !StartsWith(k, key)
    ensures var st1 := StoreVersion(st, key, content, md);
      VersionsWithPrefix(st1.objects, st1.order, Some(key)) ==
      VersionsWithPrefix(st.objects, st.order, Some(key)) + [VersionSummary(key, st.nextVersionId)]
  {
    if key in st.objects {
      PutAddsVersionToStoredKey(st, key, content, md);
    } else {
      PutAddsVersionToNewKey(st, key, content, md);
    }
  }

  lemma SummariesAppend(key: string, vs: seq<Version>, v: Version)
    ensures Summaries(key, vs + [v]) == Summaries(key, vs) + [VersionSummary(key, v.versionId)]
  {
  }

  lemma PutAddsVersionToStoredKey(st: StoreState, key: string, content: Stream, md: ObjectMetadata)
    requires ValidState(st) && key in st.objects
    requires forall k :: k in st.objects && k != key ==> !StartsWith(k, key)
    ensures var st1 := StoreVersion(st, key, content, md);
      VersionsWithPrefix(st1.objects, st1.order, Some(key)) ==
      VersionsWithPrefix(st.objects, st.order, Some(key)) + [VersionSummary(key, st.nextVersionId)]
  {
    var st1 := StoreVersion(st, key, content, md);
    StoreVersionValid(st, key, content, md);
    OnlyKeyListed(st.objects, st.order, key);
    OnlyKeyListed(st1.objects, st1.order, key);
    SummariesAppend(key, st.objects[key], Version(st.nextVersionId, md, content));
  }

  lemma PutAddsVersionToNewKey(st: StoreState, key: string, content: Stream, md: ObjectMetadata)
    requires ValidState(st) && key !in st.objects
    requires forall k :: k in st.objects && k != key ==> !StartsWith(k, key)
    ensures var st1 := StoreVersion(st, key, content, md);
      VersionsWithPrefix(st1.objects, st1.order, Some(key)) ==
      VersionsWithPrefix(st.objects, st.order, Some(key)) + [VersionSummary(key, st.nextVersionId)]
  {
    var st1 := StoreVersion(st, key, content, md);
    assert key !in st.order;
    NothingListed(st.objects, st.order, key);
    assert st1.order[..|st1.order| - 1] == st.order;
    SameListing(st.objects, st1.objects, st.order, key);
    assert StartsWith(key, key);
    assert st1.objects[key] == [Version(st.nextVersionId, md, content)];
  }

  /** With no other key starting with `key`, its prefix listing holds just its own versions. */
  lemma {:induction false} OnlyKeyListed(objects: map<string, seq<Version>>, keys: seq<string>, key: string)
    requires key in objects && key in keys && NoDuplicates(keys)
    requires forall k :: k in objects && k != key ==> !StartsWith(k, key)
    ensures VersionsWithPrefix(objects, keys, Some(key)) == Summaries(key, objects[key])
  {
    var last := keys[|keys| - 1];
    var init := keys[..|keys| - 1];
    assert NoDuplicates(init);
    if last == key {
      assert key !in init;
      NothingListed(objects, init, key);
      assert StartsWith(key, key);
    } else {
      assert key in init;
      OnlyKeyListed(objects, init, key);
    }
  }

  /** Keys other than those starting with the prefix contribute nothing. */
  lemma {:induction false} NothingListed(objects: map<string, seq<Version>>, keys: seq<string>, key: string)
    requires key !in keys
    requires forall k :: k in objects && k != key ==> !StartsWith(k, key)
    ensures VersionsWithPrefix(objects, keys, Some(key)) == []
  {
    if keys != [] {
      assert keys[|keys| - 1] != key;
      NothingListed(objects, keys[..|keys| - 1], key);
    }
  }

  /** The listing of keys other than `key` does not depend on the versions of `key`. */
  lemma {:induction false} SameListing(a: map<string, seq<Version>>, b: map<string, seq<Version>>, keys: seq<string>, key: string)
    requires key !in keys
    requires forall k :: k != key ==> (k in a <==> k in b) && (k in a ==> a[k] == b[k])
    ensures VersionsWithPrefix(a, keys, Some(key)) == VersionsWithPrefix(b, keys, Some(key))
  {
    if keys != [] {
      SameListing(a, b, keys[..|keys| - 1], key);
    }
  }

  /**
   * The store as one mutable object. Its methods make the client calls,
   * each changing the state exactly as the corresponding step says.
   */
  class Store {
    var objects: map<string, seq<Version>>
    var order: seq<string>
    var nextVersionId: nat
    var calls: nat
    var faults: map<nat, Anomaly>

    function State(): StoreState
      reads this
    {
      StoreState(objects, order, nextVersionId, calls, faults)
    }

    ghost predicate Valid()
      reads this
    {
      ValidState(State())
    }

    /** An empty bucket with the given schedule of anomalies. */
    constructor (schedule: map<nat, Anomaly>)
      ensures Valid() && State() == StoreState(map[], [], 0, 0, schedule)
    {
      objects, order, nextVersionId, calls, faults := map[], [], 0, 0, schedule;
    }

    method Assign(st: StoreState)
      modifies this
      ensures State() == st
    {
      objects, order, nextVersionId, calls, faults := st.objects, st.order, st.nextVersionId, st.calls, st.faults;
    }

    method GetObjectMetadata(key: Option<string>) returns (r: Outcome<Option<ObjectMetadata>>)
      requires Valid()
      modifies this
      ensures Valid() && (State(), r) == MetadataStep(old(State()), key)
    {
      var step := MetadataStep(State(), key);
      Assign(step.0);
      r := step.1;
    }

    method GetObject(key: Option<string>) returns (r: Outcome<Option<S3Object>>)
      requires Valid()
      modifies this
      ensures Valid() && (State(), r) == ObjectStep(old(State()), key)
    {
      var step := ObjectStep(State(), key);
      Assign(step.0);
      r := step.1;
    }

    method PutObject(key: Option<string>, content: Option<Stream>, md: ObjectMetadata)
      returns (r: Outcome<Option<PutObjectResult>>)
      requires Valid()
      modifies this
      ensures Valid() && (State(), r) == PutStep(old(State()), key, content, md)
    {
      var step := PutStep(State(), key, content, md);
      PutPreservesValid(State(), key, content, md);
      Assign(step.0);
      r := step.1;
    }

    method DeleteObject(key: Option<string>) returns (r: Outcome<()>)
      requires Valid()
      modifies this
      ensures Valid() && (State(), r) == DeleteStep(old(State()), key)
    {
      var step := DeleteStep(State(), key);
      DeletePreservesValid(State(), key);
      Assign(step.0);
      r := step.1;
    }

    method ListObjectsV2() returns (r: Outcome<Option<Listing<string>>>)
      requires Valid()
      modifies this
      ensures Valid() && (State(), r) == ListObjectsStep(old(State()))
    {
      var step := ListObjectsStep(State());
      Assign(step.0);
      r := step.1;
    }

    method ListVersions(prefix: Option<string>, maxResults: nat) returns (r: Outcome<Option<Listing<VersionSummary>>>)
      requires Valid()
      modifies this
      ensures Valid() && (State(), r) == ListVersionsStep(old(State()), prefix, maxResults)
    {
      var step := ListVersionsStep(State(), prefix, maxResults);
      Assign(step.0);
      r := step.1;
    }
  }
}
