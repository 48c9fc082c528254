/**
 * The object store the S3 processor talks to, reduced to what the
 * processor relies on: buckets, objects with their content, content type,
 * modification time and ETag, and the handful of calls it makes. A call
 * on a bucket that does not exist, or a read of a key that does not
 * exist, fails; everything else succeeds. The store's listing order is
 * the order in which keys were first written.
 */
module ObjectStore {
  import opened Wrappers
  import opened PyText

  newtype byte = b: int | 0 <= b < 256

  datatype Location = Location(bucket: string, key: string)

  datatype S3Object = S3Object(content: seq<byte>, contentType: Option<string>, lastModified: int, etag: string)

  /** Why a call on the store fails. */
  datatype Fault =
    | NoSuchBucket(bucket: string)
    | NoSuchKey(bucket: string, key: string)
    | InvalidArgument
    | MalformedRequest

  /** One entry of a listing: the fields `list_objects_v2` reports per object. */
  datatype Listed = Listed(key: string, size: nat, lastModified: int, etag: string)

  datatype Listing = Listing(contents: seq<Listed>, isTruncated: bool)

  /** How many keys a listing returns when the caller names no limit. */
  const DefaultMaxKeys: int := 1000

  /** How many keys one multi-object delete accepts. */
  const MaxDeleteKeys: int := 1000

  predicate Distinct<T(==)>(s: seq<T>)
  {
    forall i, j :: 0 <= i < j < |s| ==> s[i] != s[j]
  }

  datatype StoreState = StoreState(buckets: set<string>, objects: map<Location, S3Object>, order: seq<Location>)
  {
    /** Every object lives in a bucket, and `order` lists each object exactly once. */
    predicate Valid()
    {
      && (forall l :: l in objects ==> l.bucket in buckets)
      && (forall l :: l in objects ==> l in order)
      && (forall i :: 0 <= i < |order| ==> order[i] in objects)
      && Distinct(order)
    }
  }

  /** An ETag as the service reports it: the digest wrapped in double quotes. */
  function Quoted(digest: string): string
  {
    ['"'] + digest + ['"']
  }

  // ---------------------------------------------------------------------
  // Reads

  function Head(st: StoreState, bucket: string): (r: Result<(), Fault>)
    ensures r.Ok? <==> bucket in st.buckets
  {
    if bucket in st.buckets then Ok(()) else Err(NoSuchBucket(bucket))
  }

  /** `head_object` / `get_object`. */
  function Lookup(st: StoreState, loc: Location): (r: Result<S3Object, Fault>)
    ensures r.Ok? <==> loc.bucket in st.buckets && loc in st.objects
    ensures r.Ok? ==> r.value == st.objects[loc]
  {
    if loc.bucket !in st.buckets then Err(NoSuchBucket(loc.bucket))
    else if loc !in st.objects then Err(NoSuchKey(loc.bucket, loc.key))
    else Ok(st.objects[loc])
  }

  /** The stored locations of `bucket` whose key starts with `prefix`, in listing order. */
  function Matching(st: StoreState, order: seq<Location>, bucket: string, prefix: string): (r: seq<Location>)
    ensures forall l :: l in r <==> l in order && l in st.objects && l.bucket == bucket && StartsWith(l.key, prefix)
    ensures |r| <= |order|
  {
    if order == [] then []
    else
      var last := order[|order| - 1];
      Matching(st, order[..|order| - 1], bucket, prefix) +
        (if last in st.objects && last.bucket == bucket && StartsWith(last.key, prefix) then [last] else [])
  }

  function ListedOf(st: StoreState, locs: seq<Location>): (r: seq<Listed>)
    requires forall l :: l in locs ==> l in st.objects
    ensures |r| == |locs|
    ensures forall i :: 0 <= i < |locs| ==> r[i].key == locs[i].key && r[i].etag == st.objects[locs[i]].etag
  {
    seq(|locs|, i requires 0 <= i < |locs| =>
      var o := st.objects[locs[i]];
      Listed(locs[i].key, |o.content|, o.lastModified, o.etag))
  }

  /**
   * `list_objects_v2(Bucket, Prefix, MaxKeys)`: the first `maxKeys`
   * matching objects and whether more matched.
   */
  function List(st: StoreState, bucket: string, prefix: string, maxKeys: int): Result<Listing, Fault>
  {
    if bucket !in st.buckets then Err(NoSuchBucket(bucket))
    else if maxKeys < 0 then Err(InvalidArgument)
    else
      var m := Matching(st, st.order, bucket, prefix);
      var shown := if maxKeys < |m| then m[..maxKeys] else m;
      Ok(Listing(ListedOf(st, shown), |m| > maxKeys))
  }

  /**
   * A listing holds at most `maxKeys` entries, all under the prefix, and
   * is truncated exactly when more objects matched than it holds.
   */
  lemma ListingBounds(st: StoreState, bucket: string, prefix: string, maxKeys: int)
    requires List(st, bucket, prefix, maxKeys).Ok?
    ensures var l := List(st, bucket, prefix, maxKeys).value;
      && |l.contents| <= maxKeys
      && (forall i :: 0 <= i < |l.contents| ==> StartsWith(l.contents[i].key, prefix))
      && (l.isTruncated <==> |Matching(st, st.order, bucket, prefix)| > |l.contents|)
  {
    var m := Matching(st, st.order, bucket, prefix);
    var shown := if maxKeys < |m| then m[..maxKeys] else m;
    forall i | 0 <= i < |shown| ensures StartsWith(shown[i].key, prefix) {
      assert shown[i] in m;
    }
  }

  /** `ListObjects` fails exactly on a missing bucket or a negative limit. */
  lemma ListingFailure(st: StoreState, bucket: string, prefix: string, maxKeys: int)
    ensures List(st, bucket, prefix, maxKeys).Err? <==> bucket !in st.buckets || maxKeys < 0
  {
  }

  // ---------------------------------------------------------------------
  // Writes

  /** `put_object`: a new key joins the end of the listing order, an existing one keeps its place. */
  function Put(st: StoreState, loc: Location, obj: S3Object): Result<StoreState, Fault>
  {
    if loc.bucket !in st.buckets then Err(NoSuchBucket(loc.bucket))
    else Ok(StoreState(st.buckets, st.objects[loc := obj], if loc in st.objects then st.order else st.order + [loc]))
  }

  /** The listing order without the removed locations. */
  function Without(order: seq<Location>, gone: set<Location>): (r: seq<Location>)
    ensures forall l :: l in r <==> l in order && l !in gone
    ensures Distinct(order) ==> Distinct(r)
  {
    if order == [] then []
    else
      var rest := Without(order[1..], gone);
      assert Distinct(order) ==> order[0] !in order[1..] && Distinct(order[1..]);
      if order[0] in gone then rest else [order[0]] + rest
  }

  function Remove(st: StoreState, gone: set<Location>): StoreState
  {
    StoreState(st.buckets, map l | l in st.objects && l !in gone :: st.objects[l], Without(st.order, gone))
  }

  /** `delete_object`: deleting a key that is not there succeeds. */
  function Delete(st: StoreState, loc: Location): Result<StoreState, Fault>
  {
    if loc.bucket !in st.buckets then Err(NoSuchBucket(loc.bucket))
    else Ok(Remove(st, {loc}))
  }

  /** `delete_objects`: between 1 and 1000 keys of one bucket. */
  function DeleteMany(st: StoreState, bucket: string, keys: seq<string>): Result<StoreState, Fault>
  {
    if bucket !in st.buckets then Err(NoSuchBucket(bucket))
    else if |keys| == 0 || |keys| > MaxDeleteKeys then Err(MalformedRequest)
    else Ok(Remove(st, set k | k in keys :: Location(bucket, k)))
  }

  /**
   * `copy_object` with `MetadataDirective='REPLACE'` and no new content
   * type: the destination receives the source's content and ETag, and no
   * content type of its own.
   */
  function Copy(st: StoreState, src: Location, dst: Location, now: int): Result<StoreState, Fault>
  {
    match Lookup(st, src)
    case Err(f) => Err(f)
    case Ok(o) => Put(st, dst, S3Object(o.content, None, now, o.etag))
  }

  // ---------------------------------------------------------------------
  // What the writes do

  /** A write keeps the store consistent, and the written object reads back. */
  lemma PutSpec(st: StoreState, loc: Location, obj: S3Object)
    requires st.Valid()
    ensures Put(st, loc, obj).Ok? <==> loc.bucket in st.buckets
    ensures Put(st, loc, obj).Ok? ==>
      var st' := Put(st, loc, obj).value;
      && st'.Valid()
      && Lookup(st', loc) == Ok(obj)
      && (forall other :: other != loc ==> Lookup(st', other) == Lookup(st, other))
  {
    if loc.bucket in st.buckets {
      PutValid(st, loc, obj);
    }
  }

  lemma PutValid(st: StoreState, loc: Location, obj: S3Object)
    requires st.Valid() && loc.bucket in st.buckets
    ensures Put(st, loc, obj).value.Valid()
  {
    var st' := Put(st, loc, obj).value;
    if loc !in st.objects {
      assert loc !in st.order;
      assert Distinct(st'.order) by {
        assert st'.order == st.order + [loc];
      }
      assert forall i :: 0 <= i < |st'.order| ==> st'.order[i] in st'.objects by {
        assert forall i :: 0 <= i < |st.order| ==> st'.order[i] == st.order[i];
      }
    }
  }

  /** Removing locations keeps the store consistent and removes exactly those locations. */
  lemma RemoveSpec(st: StoreState, gone: set<Location>)
    requires st.Valid()
    ensures Remove(st, gone).Valid()
    ensures forall l :: l in Remove(st, gone).objects <==> l in st.objects && l !in gone
    ensures forall l :: l in Remove(st, gone).objects ==> Remove(st, gone).objects[l] == st.objects[l]
  {
    var order := Remove(st, gone).order;
    forall i | 0 <= i < |order| ensures order[i] in Remove(st, gone).objects {
      assert order[i] in order;
    }
  }

  /** A deleted key no longer reads; every other key reads as before. */
  lemma DeleteSpec(st: StoreState, loc: Location)
    requires st.Valid()
    ensures Delete(st, loc).Ok? <==> loc.bucket in st.buckets
    ensures Delete(st, loc).Ok? ==>
      var st' := Delete(st, loc).value;
      && st'.Valid()
      && Lookup(st', loc) == Err(NoSuchKey(loc.bucket, loc.key))
      && (forall other :: other != loc ==> Lookup(st', other) == Lookup(st, other))
  {
    if loc.bucket in st.buckets {
      RemoveSpec(st, {loc});
    }
  }

  /** A multi-object delete removes exactly the named keys of the bucket. */
  lemma DeleteManySpec(st: StoreState, bucket: string, keys: seq<string>)
    requires st.Valid()
    ensures DeleteMany(st, bucket, keys).Ok? <==> bucket in st.buckets && 0 < |keys| <= MaxDeleteKeys
    ensures DeleteMany(st, bucket, keys).Ok? ==>
      var st' := DeleteMany(st, bucket, keys).value;
      && st'.Valid()
      && st'.buckets == st.buckets
      && (forall l :: l in st'.objects <==> l in st.objects && !(l.bucket == bucket && l.key in keys))
      && (forall l :: l in st'.objects ==> st'.objects[l] == st.objects[l])
  {
    if bucket in st.buckets && 0 < |keys| <= MaxDeleteKeys {
      var gone := set k | k in keys :: Location(bucket, k);
      RemoveSpec(st, gone);
      forall l ensures l in gone <==> l.bucket == bucket && l.key in keys {
        if l.bucket == bucket && l.key in keys {
          assert Location(bucket, l.key) == l;
        }
      }
    }
  }

  /** A copy makes the destination read as the source's content and ETag, with the new time. */
  lemma CopySpec(st: StoreState, src: Location, dst: Location, now: int)
    requires st.Valid()
    ensures Copy(st, src, dst, now).Ok? <==> Lookup(st, src).Ok? && dst.bucket in st.buckets
    ensures Copy(st, src, dst, now).Ok? ==>
      var o := st.objects[src];
      && Copy(st, src, dst, now).value.Valid()
      && Lookup(Copy(st, src, dst, now).value, dst) == Ok(S3Object(o.content, None, now, o.etag))
      && (forall other :: other != dst ==> Lookup(Copy(st, src, dst, now).value, other) == Lookup(st, other))
  {
    if Lookup(st, src).Ok? {
      var o := st.objects[src];
      PutSpec(st, dst, S3Object(o.content, None, now, o.etag));
    }
  }

  // ---------------------------------------------------------------------
  // The client

  /** The `s3_client` the handlers share: the store's state, changed in place by each call. */
  class S3Client {
    var state: StoreState
    /** The content digest the service reports inside the ETag. */
    const digest: seq<byte> -> string

    /** The client's store is always consistent. */
    ghost predicate Valid()
      reads this
    {
      state.Valid()
    }

    constructor(initial: StoreState, digest: seq<byte> -> string)
      requires initial.Valid()
      ensures Valid()
      ensures state == initial && this.digest == digest
    {
      state := initial;
      this.digest := digest;
    }

    method HeadBucket(bucket: string) returns (r: Result<(), Fault>)
      ensures r.Ok? <==> bucket in state.buckets
    {
      r := Head(state, bucket);
    }

    method GetObject(loc: Location) returns (r: Result<S3Object, Fault>)
      ensures r == Lookup(state, loc)
    {
      r := Lookup(state, loc);
    }

    method ListObjects(bucket: string, prefix: string, maxKeys: int) returns (r: Result<Listing, Fault>)
      ensures r == List(state, bucket, prefix, maxKeys)
    {
      r := List(state, bucket, prefix, maxKeys);
    }

    method ListBuckets() returns (names: set<string>)
      ensures names == state.buckets
    {
      names := state.buckets;
    }

    /** `put_object`; the store records `now` and the quoted digest of the content. */
    method PutObject(loc: Location, content: seq<byte>, contentType: string, now: int) returns (r: Result<(), Fault>)
      requires Valid()
      modifies this
      ensures Valid()
      ensures var next := Put(old(state), loc, S3Object(content, Some(contentType), now, Quoted(digest(content))));
        && r == (if next.Ok? then Ok(()) else Err(next.error))
        && state == (if next.Ok? then next.value else old(state))
    {
      PutSpec(state, loc, S3Object(content, Some(contentType), now, Quoted(digest(content))));
      var next := Put(state, loc, S3Object(content, Some(contentType), now, Quoted(digest(content))));
      if next.Ok? {
        state := next.value;
        r := Ok(());
      } else {
        r := Err(next.error);
      }
    }

    method DeleteObject(loc: Location) returns (r: Result<(), Fault>)
      requires Valid()
      modifies this
      ensures Valid()
      ensures var next := Delete(old(state), loc);
        && r == (if next.Ok? then Ok(()) else Err(next.error))
        && state == (if next.Ok? then next.value else old(state))
    {
      DeleteSpec(state, loc);
      var next := Delete(state, loc);
      if next.Ok? {
        state := next.value;
        r := Ok(());
      } else {
        r := Err(next.error);
      }
    }

    method DeleteObjects(bucket: string, keys: seq<string>) returns (r: Result<(), Fault>)
      requires Valid()
      modifies this
      ensures Valid()
      ensures var next := DeleteMany(old(state), bucket, keys);
        && r == (if next.Ok? then Ok(()) else Err(next.error))
        && state == (if next.Ok? then next.value else old(state))
    {
      DeleteManySpec(state, bucket, keys);
      var next := DeleteMany(state, bucket, keys);
      if next.Ok? {
        state := next.value;
        r := Ok(());
      } else {
        r := Err(next.error);
      }
    }

    method CopyObject(src: Location, dst: Location, now: int) returns (r: Result<(), Fault>)
      requires Valid()
      modifies this
      ensures Valid()
      ensures var next := Copy(old(state), src, dst, now);
        && r == (if next.Ok? then Ok(()) else Err(next.error))
        && state == (if next.Ok? then next.value else old(state))
    {
      CopySpec(state, src, dst, now);
      var next := Copy(state, src, dst, now);
      if next.Ok? {
        state := next.value;
        r := Ok(());
      } else {
        r := Err(next.error);
      }
    }
  }
}
