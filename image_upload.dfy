/**
 * `src/components/property/ImageUpload.tsx`: the picker that holds up to `maxImages` listing
 * photos, validates each file, and keeps one of them marked as the primary photo.
 * The random ids and object URLs a new file gets are carried in by the caller as a `Candidate`.
 */
module ImageUpload {
  import opened Wrappers
  import opened Ascii
  import opened Seqs

  /** The parts of a browser `File` the picker looks at. `size` is in bytes. */
  datatype UploadFile = UploadFile(name: string, mimeType: string, size: nat)

  /** An accepted photo. An absent `isPrimary` is `false`. */
  datatype ImageFile = ImageFile(file: UploadFile, preview: string, id: string, isPrimary: bool)

  /** A picked or dropped file together with the id and preview URL it would be given. */
  datatype Candidate = Candidate(file: UploadFile, preview: string, id: string)

  datatype FileCheck = Accepted | NotAnImage | TooLarge | UnsupportedFormat

  const DefaultMaxImages: nat := 5
  /** Megabytes. */
  const DefaultMaxSize: nat := 10
  const SupportedFormats: seq<string> := ["image/jpeg", "image/jpg", "image/png", "image/webp"]

  predicate StartsWith(s: string, prefix: string) {
    |prefix| <= |s| && s[..|prefix|] == prefix
  }

  /** `validateFile`, checks in the source's order: an image type, then the size limit of
      `maxSize` megabytes, then one of the four supported formats. */
  function ValidateFile(file: UploadFile, maxSize: nat): (r: FileCheck)
    ensures r == Accepted <==> file.mimeType in SupportedFormats && file.size <= maxSize * 1024 * 1024
    ensures r == NotAnImage <==> !StartsWith(file.mimeType, "image/")
    ensures r == TooLarge ==> file.size > maxSize * 1024 * 1024
    ensures r == TooLarge <==> StartsWith(file.mimeType, "image/") && file.size > maxSize * 1024 * 1024
    ensures r == UnsupportedFormat <==>
      StartsWith(file.mimeType, "image/") && file.size <= maxSize * 1024 * 1024 && file.mimeType !in SupportedFormats
    ensures r == UnsupportedFormat ==> file.mimeType !in SupportedFormats
  {
    assert forall f :: f in SupportedFormats ==> StartsWith(f, "image/");
    if !StartsWith(file.mimeType, "image/") then NotAnImage
    else if file.size > maxSize * 1024 * 1024 then TooLarge
    else if file.mimeType !in SupportedFormats then UnsupportedFormat
    else Accepted
  }

  /** The error toast for a rejected file. */
  function RejectionMessage(check: FileCheck, maxSize: nat): string {
    match check
    case NotAnImage => "Please upload only image files"
    case TooLarge => "File size must be less than " + NatToString(maxSize) + "MB"
    case UnsupportedFormat => "Please upload JPEG, PNG, or WebP images only"
    case Accepted => ""
  }

  function TooManyMessage(maxImages: nat): string {
    "You can upload a maximum of " + NatToString(maxImages) + " images"
  }

  function Acceptable(maxSize: nat): Candidate -> bool {
    (c: Candidate) => ValidateFile(c.file, maxSize) == Accepted
  }

  /** The error toasts validation raises over a batch, one per rejected file, in order. */
  function RejectionToasts(batch: seq<Candidate>, maxSize: nat): (toasts: seq<string>)
    ensures |toasts| + |Filter(batch, Acceptable(maxSize))| == |batch|
  {
    if batch == [] then []
    else
      var check := ValidateFile(batch[0].file, maxSize);
      (if check == Accepted then [] else [RejectionMessage(check, maxSize)])
      + RejectionToasts(batch[1..], maxSize)
  }

  function Primary(img: ImageFile): bool {
    img.isPrimary
  }

  function DistinctIds(a: ImageFile, b: ImageFile): bool {
    a.id != b.id
  }

  predicate UniqueIds(images: seq<ImageFile>) {
    Pairwise(images, DistinctIds)
  }

  /** The picker's invariant: no photos and no primary, or exactly one primary photo. */
  predicate OnePrimary(images: seq<ImageFile>) {
    Count(images, Primary) == if images == [] then 0 else 1
  }

  /** The ids of new photos are distinct from each other and from the ids already held. */
  predicate FreshIds(images: seq<ImageFile>, batch: seq<Candidate>) {
    && UniqueIds(images)
    && (forall i, j :: 0 <= i < j < |batch| ==> batch[i].id != batch[j].id)
    && (forall i, j :: 0 <= i < |images| && 0 <= j < |batch| ==> images[i].id != batch[j].id)
  }

  /** The accepted files of a batch as photos, as written: `createImageFile` reads the photo
      list from before the batch, so every one of them is marked primary when the picker held
      no photo. */
  function NewImagesAsWritten(images: seq<ImageFile>, valid: seq<Candidate>): (r: seq<ImageFile>)
    ensures |r| == |valid|
    ensures forall i :: 0 <= i < |r| ==> r[i].id == valid[i].id && r[i].file == valid[i].file
    ensures forall i :: 0 <= i < |r| ==> r[i].isPrimary == (|images| == 0)
  {
    seq(|valid|, i requires 0 <= i < |valid| =>
      ImageFile(valid[i].file, valid[i].preview, valid[i].id, |images| == 0))
  }

  /** The accepted files of a batch as photos, corrected: only the first photo ever added is
      primary. */
  function NewImages(images: seq<ImageFile>, valid: seq<Candidate>): (r: seq<ImageFile>)
    ensures |r| == |valid|
    ensures forall i :: 0 <= i < |r| ==> r[i].id == valid[i].id && r[i].file == valid[i].file
    ensures forall i :: 0 <= i < |r| ==> r[i].isPrimary == (images == [] && i == 0)
  {
    seq(|valid|, i requires 0 <= i < |valid| =>
      ImageFile(valid[i].file, valid[i].preview, valid[i].id, |images| == 0 && i == 0))
  }

  /** What `handleFiles` leaves, as written, when the batch is within the limit. */
  function AddedAsWritten(images: seq<ImageFile>, batch: seq<Candidate>, maxSize: nat): (r: seq<ImageFile>)
    ensures |r| == |images| + |Filter(batch, Acceptable(maxSize))| && r[..|images|] == images
  {
    images + NewImagesAsWritten(images, Filter(batch, Acceptable(maxSize)))
  }

  /** What the corrected `handleFiles` leaves, when the batch is within the limit. */
  function Added(images: seq<ImageFile>, batch: seq<Candidate>, maxSize: nat): (r: seq<ImageFile>)
    ensures |r| == |images| + |Filter(batch, Acceptable(maxSize))| && r[..|images|] == images
  {
    images + NewImages(images, Filter(batch, Acceptable(maxSize)))
  }

  /** The source's two-photo counterexample: a first batch of two acceptable photos leaves two
      primary photos. */
  lemma {:induction false} AsWrittenFirstBatchHasTwoPrimaries()
    ensures var f := UploadFile("a.png", "image/png", 1);
      var batch := [Candidate(f, "blob:a", "a"), Candidate(f, "blob:b", "b")];
      Count(NewImagesAsWritten([], batch), Primary) == 2 && !OnePrimary(NewImagesAsWritten([], batch))
  {
    var f := UploadFile("a.png", "image/png", 1);
    var batch := [Candidate(f, "blob:a", "a"), Candidate(f, "blob:b", "b")];
    var r := NewImagesAsWritten([], batch);
    assert r[1..][1..] == [];
    assert Count(r[1..], Primary) == 1;
  }

  /** As written, a first batch adds one primary photo per accepted file, a later batch none. */
  lemma {:induction false} NewImagesAsWrittenPrimaryCount(images: seq<ImageFile>, valid: seq<Candidate>)
    ensures Count(NewImagesAsWritten(images, valid), Primary) == if images == [] then |valid| else 0
  {
    if valid != [] {
      NewImagesAsWrittenPrimaryCount(images, valid[1..]);
      assert NewImagesAsWritten(images, valid)[1..] == NewImagesAsWritten(images, valid[1..]);
    }
  }

  /** As written, a batch keeps exactly one primary photo exactly when the picker already held
      a photo or at most one file of the batch is accepted. */
  lemma {:induction false} AddedAsWrittenOnePrimary(images: seq<ImageFile>, batch: seq<Candidate>, maxSize: nat)
    requires OnePrimary(images)
    ensures Count(AddedAsWritten(images, batch, maxSize), Primary) ==
      Count(images, Primary) + if images == [] then |Filter(batch, Acceptable(maxSize))| else 0
    ensures OnePrimary(AddedAsWritten(images, batch, maxSize)) <==>
      images != [] || |Filter(batch, Acceptable(maxSize))| <= 1
  {
    var valid := Filter(batch, Acceptable(maxSize));
    CountAppend(images, NewImagesAsWritten(images, valid), Primary);
    NewImagesAsWrittenPrimaryCount(images, valid);
  }

  /** Corrected, a first non-empty batch adds one primary photo, a later batch none. */
  lemma {:induction false} NewImagesPrimaryCount(images: seq<ImageFile>, valid: seq<Candidate>)
    ensures Count(NewImages(images, valid), Primary) == if images == [] && valid != [] then 1 else 0
  {
    var r := NewImages(images, valid);
    if r != [] {
      CountZero(r[1..], Primary);
    } else {
      CountZero(r, Primary);
    }
  }

  /** Adding a batch keeps exactly one primary photo. */
  lemma {:induction false} AddedKeepsOnePrimary(images: seq<ImageFile>, batch: seq<Candidate>, maxSize: nat)
    requires OnePrimary(images)
    ensures OnePrimary(Added(images, batch, maxSize))
  {
    var valid := Filter(batch, Acceptable(maxSize));
    CountAppend(images, NewImages(images, valid), Primary);
    NewImagesPrimaryCount(images, valid);
  }

  /** Adding a batch of fresh ids keeps the ids unique, whichever photo is marked primary. */
  lemma {:induction false} AddedKeepsIdsUnique(images: seq<ImageFile>, batch: seq<Candidate>, maxSize: nat)
    requires FreshIds(images, batch)
    ensures UniqueIds(Added(images, batch, maxSize))
    ensures UniqueIds(AddedAsWritten(images, batch, maxSize))
  {
    var valid := Filter(batch, Acceptable(maxSize));
    AppendFreshKeepsIdsUnique(images, batch, maxSize, NewImages(images, valid));
    AppendFreshKeepsIdsUnique(images, batch, maxSize, NewImagesAsWritten(images, valid));
  }

  lemma {:induction false} AppendFreshKeepsIdsUnique(images: seq<ImageFile>, batch: seq<Candidate>, maxSize: nat,
                                                      added: seq<ImageFile>)
    requires FreshIds(images, batch)
    requires |added| == |Filter(batch, Acceptable(maxSize))|
    requires forall i :: 0 <= i < |added| ==> added[i].id == Filter(batch, Acceptable(maxSize))[i].id
    ensures UniqueIds(images + added)
  {
    var valid := Filter(batch, Acceptable(maxSize));
    var r := images + added;
    FilterMembers(batch, Acceptable(maxSize));
    FilterPairwise(batch, Acceptable(maxSize), (a: Candidate, b: Candidate) => a.id != b.id);
    forall i, j | 0 <= i < j < |r| ensures DistinctIds(r[i], r[j]) {
      if j >= |images| {
        assert r[j] == added[j - |images|];
        var k :| 0 <= k < |batch| && batch[k] == valid[j - |images|];
        if i >= |images| {
          assert r[i] == added[i - |images|];
        }
      }
    }
  }

  function HasId(id: string): ImageFile -> bool {
    (img: ImageFile) => img.id == id
  }

  function OtherId(id: string): ImageFile -> bool {
    (img: ImageFile) => img.id != id
  }

  /** What `removeImage` leaves: every photo with that id dropped, and when the first photo
      with that id was primary, the first remaining photo made primary. */
  function Removed(images: seq<ImageFile>, id: string): (r: seq<ImageFile>)
    ensures |r| == Count(images, OtherId(id))
  {
    FilterLength(images, OtherId(id));
    var kept := Filter(images, OtherId(id));
    match FindFirst(images, HasId(id))
    case Some(k) => if images[k].isPrimary && |kept| > 0 then kept[0 := kept[0].(isPrimary := true)] else kept
    case None => kept
  }

  /** Removal changes no id of the photos it keeps. */
  lemma {:induction false} RemovedLikeKept(images: seq<ImageFile>, id: string)
    ensures |Removed(images, id)| == |Filter(images, OtherId(id))|
    ensures forall j :: 0 <= j < |Removed(images, id)| ==>
      Removed(images, id)[j].(isPrimary := Filter(images, OtherId(id))[j].isPrimary) == Filter(images, OtherId(id))[j]
  {
  }

  /** Which photo is primary after a removal: when the first photo with that id was primary
      and photos remain, the first remaining photo takes over and the others keep their flags;
      in every other case the flags are left alone; and an id no photo has changes nothing. */
  lemma {:induction false} RemovedHandsOverPrimary(images: seq<ImageFile>, id: string)
    ensures var kept := Filter(images, OtherId(id)); var found := FindFirst(images, HasId(id));
      found.Some? && images[found.value].isPrimary && |kept| > 0 ==>
        && Removed(images, id)[0] == kept[0].(isPrimary := true)
        && Removed(images, id)[1..] == kept[1..]
    ensures var kept := Filter(images, OtherId(id)); var found := FindFirst(images, HasId(id));
      !(found.Some? && images[found.value].isPrimary && |kept| > 0) ==> Removed(images, id) == kept
    ensures (forall i :: 0 <= i < |images| ==> images[i].id != id) ==> Removed(images, id) == images
  {
    if forall i :: 0 <= i < |images| ==> images[i].id != id {
      assert forall i :: 0 <= i < |images| ==> OtherId(id)(images[i]);
      FilterAll(images, OtherId(id));
    }
  }

  /** Removal drops exactly the photos with that id and no other. */
  lemma {:induction false} RemovedIds(images: seq<ImageFile>, id: string)
    ensures forall j :: 0 <= j < |Removed(images, id)| ==> Removed(images, id)[j].id != id
    ensures forall j :: 0 <= j < |Removed(images, id)| ==>
      exists i :: 0 <= i < |images| && images[i].id == Removed(images, id)[j].id
    ensures forall i :: 0 <= i < |images| && images[i].id != id ==>
      exists j :: 0 <= j < |Removed(images, id)| && Removed(images, id)[j].id == images[i].id
  {
    var kept := Filter(images, OtherId(id));
    var r := Removed(images, id);
    RemovedLikeKept(images, id);
    FilterMembers(images, OtherId(id));
    forall j | 0 <= j < |r| ensures r[j].id != id && exists i :: 0 <= i < |images| && images[i].id == r[j].id {
      assert r[j].id == kept[j].id;
      assert OtherId(id)(kept[j]);
      var i :| 0 <= i < |images| && images[i] == kept[j];
    }
    forall i | 0 <= i < |images| && images[i].id != id
      ensures exists j :: 0 <= j < |r| && r[j].id == images[i].id
    {
      assert OtherId(id)(images[i]);
      assert images[i] in kept;
      var j :| 0 <= j < |kept| && kept[j] == images[i];
      assert r[j].id == kept[j].id;
    }
  }

  lemma {:induction false} CountSetHead(s: seq<ImageFile>)
    requires s != [] && Count(s, Primary) == 0
    ensures Count(s[0 := s[0].(isPrimary := true)], Primary) == 1
  {
    var t := s[0 := s[0].(isPrimary := true)];
    assert t[1..] == s[1..];
  }

  /** Removal keeps exactly one primary photo, provided ids are unique. */
  lemma {:induction false} RemovedKeepsOnePrimary(images: seq<ImageFile>, id: string)
    requires UniqueIds(images) && OnePrimary(images)
    ensures OnePrimary(Removed(images, id))
  {
    var kept := Filter(images, OtherId(id));
    FilterCount(images, OtherId(id), Primary);
    match FindFirst(images, HasId(id)) {
      case None =>
        FilterAll(images, OtherId(id));
      case Some(k) =>
        if images[k].isPrimary {
          if |kept| > 0 {
            CountSetHead(kept);
          }
        } else {
          CountZero(images, Primary);
          var m :| 0 <= m < |images| && Primary(images[m]);
          assert images[m].id != id by {
            if m < k {
              assert DistinctIds(images[m], images[k]);
            } else if k < m {
              assert DistinctIds(images[k], images[m]);
            }
          }
          assert OtherId(id)(images[m]);
        }
    }
  }

  /** Removal keeps ids unique. */
  lemma {:induction false} RemovedKeepsIdsUnique(images: seq<ImageFile>, id: string)
    requires UniqueIds(images)
    ensures UniqueIds(Removed(images, id))
  {
    var kept := Filter(images, OtherId(id));
    FilterPairwise(images, OtherId(id), DistinctIds);
    var r := Removed(images, id);
    RemovedLikeKept(images, id);
    forall i, j | 0 <= i < j < |r| ensures DistinctIds(r[i], r[j]) {
      assert DistinctIds(kept[i], kept[j]);
      assert r[i].id == kept[i].id && r[j].id == kept[j].id;
    }
  }

  /** What `setPrimaryImage` leaves: the photo with that id primary and every other one not. */
  function WithPrimary(images: seq<ImageFile>, id: string): (r: seq<ImageFile>)
    ensures |r| == |images|
    ensures forall i :: 0 <= i < |r| ==> r[i].(isPrimary := images[i].isPrimary) == images[i]
    ensures forall i :: 0 <= i < |r| ==> r[i].isPrimary == (images[i].id == id)
  {
    seq(|images|, i requires 0 <= i < |images| => images[i].(isPrimary := images[i].id == id))
  }

  lemma {:induction false} WithPrimaryCount(images: seq<ImageFile>, id: string)
    ensures Count(WithPrimary(images, id), Primary) == Count(images, HasId(id))
  {
    if images != [] {
      WithPrimaryCount(images[1..], id);
      assert WithPrimary(images, id)[1..] == WithPrimary(images[1..], id);
    }
  }

  lemma {:induction false} UniqueIdCount(images: seq<ImageFile>, k: nat)
    requires UniqueIds(images) && k < |images|
    ensures Count(images, HasId(images[k].id)) == 1
  {
    var id := images[k].id;
    var tail := images[1..];
    assert UniqueIds(tail) by {
      forall i, j | 0 <= i < j < |tail| ensures DistinctIds(tail[i], tail[j]) {
        assert tail[i] == images[i + 1] && tail[j] == images[j + 1];
      }
    }
    if k == 0 {
      CountZero(tail, HasId(id));
      forall i | 0 <= i < |tail| ensures !HasId(id)(tail[i]) {
        assert DistinctIds(images[0], images[i + 1]);
      }
    } else {
      assert images[k] == tail[k - 1];
      UniqueIdCount(tail, k - 1);
      assert DistinctIds(images[0], images[k]);
    }
  }

  /** Choosing a held photo as primary leaves exactly that photo primary. */
  lemma {:induction false} WithPrimaryOnePrimary(images: seq<ImageFile>, k: nat)
    requires UniqueIds(images) && k < |images|
    ensures OnePrimary(WithPrimary(images, images[k].id))
    ensures WithPrimary(images, images[k].id)[k].isPrimary
  {
    WithPrimaryCount(images, images[k].id);
    UniqueIdCount(images, k);
  }

  class ImageUploader {
    const maxImages: nat
    /** Megabytes. */
    const maxSize: nat
    const disabled: bool
    var images: seq<ImageFile>

    constructor (maxImages: nat, maxSize: nat, disabled: bool, initialImages: seq<ImageFile>)
      ensures this.maxImages == maxImages && this.maxSize == maxSize && this.disabled == disabled
      ensures images == initialImages
    {
      this.maxImages := maxImages;
      this.maxSize := maxSize;
      this.disabled := disabled;
      images := initialImages;
    }

    /** The picker's state invariant: within the limit, ids unique, exactly one primary photo. */
    predicate Valid()
      reads this
    {
      |images| <= maxImages && UniqueIds(images) && OnePrimary(images)
    }

    /** `handleFiles`, as written: a batch that would exceed `maxImages` (counting rejected
        files too) is refused whole; otherwise the acceptable files are appended, every one of
        them primary when the picker was empty, and the change is reported only when there was
        at least one. */
    method HandleFiles(batch: seq<Candidate>) returns (toasts: seq<string>, notified: bool)
      modifies this
      ensures |old(images)| + |batch| > maxImages ==>
        images == old(images) && toasts == [TooManyMessage(maxImages)] && !notified
      ensures |old(images)| + |batch| <= maxImages ==>
        && images == AddedAsWritten(old(images), batch, maxSize)
        && toasts == RejectionToasts(batch, maxSize)
        && (notified <==> Filter(batch, Acceptable(maxSize)) != [])
      ensures |old(images)| + |batch| <= maxImages && OnePrimary(old(images)) ==>
        Count(images, Primary) ==
          Count(old(images), Primary) + if old(images) == [] then |Filter(batch, Acceptable(maxSize))| else 0
      ensures old(Valid()) && FreshIds(old(images), batch) ==>
        (old(images) != [] || |Filter(batch, Acceptable(maxSize))| <= 1 ==> Valid())
    {
      if |images| + |batch| > maxImages {
        return [TooManyMessage(maxImages)], false;
      }
      toasts := RejectionToasts(batch, maxSize);
      var validFiles := Filter(batch, Acceptable(maxSize));
      if |validFiles| == 0 {
        assert AddedAsWritten(images, batch, maxSize) == images;
        return toasts, false;
      }
      ghost var before := images;
      images := images + NewImagesAsWritten(images, validFiles);
      notified := true;
      if OnePrimary(before) {
        AddedAsWrittenOnePrimary(before, batch, maxSize);
      }
      if FreshIds(before, batch) {
        AddedKeepsIdsUnique(before, batch, maxSize);
      }
    }

    /** `handleFiles` with `createImageFile` corrected to mark only the first photo ever added
        primary: the picker's invariant then survives every batch. */
    method HandleFilesCorrected(batch: seq<Candidate>) returns (toasts: seq<string>, notified: bool)
      modifies this
      ensures |old(images)| + |batch| > maxImages ==>
        images == old(images) && toasts == [TooManyMessage(maxImages)] && !notified
      ensures |old(images)| + |batch| <= maxImages ==>
        && images == Added(old(images), batch, maxSize)
        && toasts == RejectionToasts(batch, maxSize)
        && (notified <==> Filter(batch, Acceptable(maxSize)) != [])
      ensures old(Valid()) && FreshIds(old(images), batch) ==> Valid()
    {
      if |images| + |batch| > maxImages {
        return [TooManyMessage(maxImages)], false;
      }
      toasts := RejectionToasts(batch, maxSize);
      var validFiles := Filter(batch, Acceptable(maxSize));
      if |validFiles| == 0 {
        assert Added(images, batch, maxSize) == images;
        return toasts, false;
      }
      ghost var before := images;
      images := images + NewImages(images, validFiles);
      notified := true;
      if OnePrimary(before) {
        AddedKeepsOnePrimary(before, batch, maxSize);
      }
      if FreshIds(before, batch) {
        AddedKeepsIdsUnique(before, batch, maxSize);
      }
    }

    /** `handleDrop`: ignored while the picker is disabled or when nothing was dropped;
        otherwise `handleFiles` of the dropped files. */
    method HandleDrop(batch: seq<Candidate>) returns (toasts: seq<string>, notified: bool)
      modifies this
      ensures disabled || |batch| == 0 ==> images == old(images) && toasts == [] && !notified
      ensures !disabled && |batch| > 0 && |old(images)| + |batch| > maxImages ==>
        images == old(images) && toasts == [TooManyMessage(maxImages)] && !notified
      ensures !disabled && |batch| > 0 && |old(images)| + |batch| <= maxImages ==>
        && images == AddedAsWritten(old(images), batch, maxSize)
        && toasts == RejectionToasts(batch, maxSize)
        && (notified <==> Filter(batch, Acceptable(maxSize)) != [])
      ensures old(Valid()) && FreshIds(old(images), batch) ==>
        (old(images) != [] || |Filter(batch, Acceptable(maxSize))| <= 1 ==> Valid())
    {
      if disabled || |batch| == 0 {
        return [], false;
      }
      toasts, notified := HandleFiles(batch);
    }

    /** `removeImage`. */
    method RemoveImage(id: string)
      modifies this
      ensures images == Removed(old(images), id)
      ensures old(Valid()) ==> Valid()
    {
      ghost var before := images;
      var found := FindFirst(images, HasId(id));
      var updated := Filter(images, OtherId(id));
      if found.Some? && images[found.value].isPrimary && |updated| > 0 {
        updated := updated[0 := updated[0].(isPrimary := true)];
      }
      images := updated;
      if UniqueIds(before) && OnePrimary(before) {
        RemovedKeepsOnePrimary(before, id);
        RemovedKeepsIdsUnique(before, id);
      }
    }

    /** `setPrimaryImage`. */
    method SetPrimaryImage(id: string)
      modifies this
      ensures images == WithPrimary(old(images), id)
      ensures old(Valid()) && (exists k :: 0 <= k < |old(images)| && old(images)[k].id == id) ==> Valid()
    {
      ghost var before := images;
      images := WithPrimary(images, id);
      if UniqueIds(before) && exists k :: 0 <= k < |before| && before[k].id == id {
        var k :| 0 <= k < |before| && before[k].id == id;
        WithPrimaryOnePrimary(before, k);
        assert UniqueIds(images) by {
          forall i, j | 0 <= i < j < |images| ensures DistinctIds(images[i], images[j]) {
            assert DistinctIds(before[i], before[j]);
          }
        }
      }
    }
  }
}
