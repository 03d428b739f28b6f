/**
 * `src/components/property/PropertyCard.tsx`: what a listing card shows (the photo, the status
 * badge, the type and furnishing labels, the room counts, the amenity badges) and what a
 * click on its heart does.
 */
module PropertyCard {
  import opened Wrappers
  import opened Ascii
  import opened Seqs
  import opened Types

  // ---------------------------------------------------------------------------------------
  // Photo

  function IsPrimaryImage(img: PropertyImage): bool {
    img.isPrimary
  }

  /** `images.find(img => img.isPrimary) || images[0]`. */
  function PrimaryImage(images: seq<PropertyImage>): (r: Option<PropertyImage>)
    ensures r.None? <==> images == []
    ensures r.Some? ==> r.value in images
    ensures (exists i :: 0 <= i < |images| && images[i].isPrimary) ==>
      r.Some? && r.value.isPrimary &&
      exists i :: 0 <= i < |images| && images[i] == r.value && forall j :: 0 <= j < i ==> !images[j].isPrimary
    ensures (forall i :: 0 <= i < |images| ==> !images[i].isPrimary) && images != [] ==> r == Some(images[0])
  {
    match FindFirst(images, IsPrimaryImage)
    case Some(i) => Some(images[i])
    case None => if images == [] then None else Some(images[0])
  }

  // ---------------------------------------------------------------------------------------
  // Labels

  datatype BadgeVariant = Default | Secondary | Outline

  /** `getStatusBadgeVariant`. */
  function StatusBadgeVariant(status: string): (v: BadgeVariant)
    ensures v == Secondary <==> status == "rented"
    ensures v == Outline <==> status == "pending"
    ensures v == Default <==> status != "rented" && status != "pending"
  {
    if status == "available" then Default
    else if status == "rented" then Secondary
    else if status == "pending" then Outline
    else Default
  }

  function IsChar(c: char): char -> bool {
    (x: char) => x == c
  }

  /** `s.replace(c, d)` with a one-character string pattern: only the first occurrence. */
  function ReplaceFirst(s: string, c: char, d: char): (r: string)
    ensures |r| == |s|
    ensures FindFirst(s, IsChar(c)).None? ==> r == s
    ensures FindFirst(s, IsChar(c)).Some? ==> r == s[FindFirst(s, IsChar(c)).value := d]
  {
    if s == [] then []
    else if s[0] == c then [d] + s[1..]
    else
      assert FindFirst(s, IsChar(c)) == match FindFirst(s[1..], IsChar(c))
        case None => None case Some(k) => Some(k + 1);
      [s[0]] + ReplaceFirst(s[1..], c, d)
  }

  /** `type.charAt(0).toUpperCase() + type.slice(1).replace("_", " ")`. */
  function FormatPropertyType(t: string): (r: string)
    ensures |r| == |t|
    ensures t != [] ==> r[0] == UpperChar(t[0]) && r[1..] == ReplaceFirst(t[1..], '_', ' ')
  {
    if t == [] then [] else [UpperChar(t[0])] + ReplaceFirst(t[1..], '_', ' ')
  }

  /** Position `i` matches `\b\w`: a word character not preceded by one. */
  predicate WordStart(s: string, i: nat)
    requires i < |s|
  {
    IsWordChar(s[i]) && (i == 0 || !IsWordChar(s[i - 1]))
  }

  /** `s.replace(/\b\w/g, l => l.toUpperCase())`. */
  function CapitalizeWords(s: string): (r: string)
    ensures |r| == |s|
    ensures forall i :: 0 <= i < |s| && WordStart(s, i) ==> r[i] == UpperChar(s[i]) && !IsLower(r[i])
    ensures forall i :: 0 <= i < |s| && !WordStart(s, i) ==> r[i] == s[i]
  {
    seq(|s|, i requires 0 <= i < |s| => if WordStart(s, i) then UpperChar(s[i]) else s[i])
  }

  lemma {:induction false} UpperCharKeepsClass(c: char)
    ensures IsWordChar(UpperChar(c)) <==> IsWordChar(c)
  {
  }

  /** Capitalising words twice is capitalising them once: word starts stay word starts. */
  lemma {:induction false} CapitalizeWordsIdempotent(s: string)
    ensures CapitalizeWords(CapitalizeWords(s)) == CapitalizeWords(s)
  {
    var r := CapitalizeWords(s);
    forall i | 0 <= i < |s| ensures WordStart(r, i) <==> WordStart(s, i) {
      UpperCharKeepsClass(s[i]);
      if i > 0 {
        UpperCharKeepsClass(s[i - 1]);
      }
    }
  }

  /** `status.replace("_", " ").replace(/\b\w/g, l => l.toUpperCase())`. */
  function FormatFurnishingStatus(status: string): (r: string)
    ensures |r| == |status|
  {
    CapitalizeWords(ReplaceFirst(status, '_', ' '))
  }

  /** A non-empty run of lower-case letters, as every enum value's words are. */
  predicate LowerWord(w: string) {
    w != [] && forall i :: 0 <= i < |w| ==> IsLower(w[i])
  }

  function Capitalized(w: string): string
    requires w != []
  {
    [UpperChar(w[0])] + w[1..]
  }

  lemma {:induction false} NoUnderscore(w: string)
    requires forall i :: 0 <= i < |w| ==> IsLower(w[i])
    ensures FindFirst(w, IsChar('_')).None?
  {
    assert forall i :: 0 <= i < |w| ==> !IsChar('_')(w[i]);
  }

  /** A one-word value (`furnished`, `house`) gets its first letter capitalised, by either
      formatter. */
  lemma {:induction false} OneWordLabel(w: string)
    requires LowerWord(w)
    ensures FormatFurnishingStatus(w) == Capitalized(w)
    ensures FormatPropertyType(w) == Capitalized(w)
  {
    NoUnderscore(w);
    NoUnderscore(w[1..]);
    var r := CapitalizeWords(w);
    forall i | 0 <= i < |w| ensures r[i] == Capitalized(w)[i] {
      assert WordStart(w, i) <==> i == 0;
    }
  }

  /** A two-word value joined by `_` (`partially_furnished`) becomes two capitalised words
      separated by a space. */
  lemma {:induction false} TwoWordLabel(a: string, b: string)
    requires LowerWord(a) && LowerWord(b)
    ensures FormatFurnishingStatus(a + "_" + b) == Capitalized(a) + " " + Capitalized(b)
  {
    ReplaceJoiningUnderscore(a, b);
    CapitalizeTwoWords(a, b);
  }

  /** The first `_` is the one joining the words, so it becomes the space. */
  lemma {:induction false} ReplaceJoiningUnderscore(a: string, b: string)
    requires LowerWord(a) && LowerWord(b)
    ensures ReplaceFirst(a + "_" + b, '_', ' ') == a + " " + b
  {
    var s := a + "_" + b;
    assert FindFirst(s, IsChar('_')) == Some(|a|) by {
      assert forall i :: 0 <= i < |a| ==> s[i] == a[i] && !IsChar('_')(s[i]);
      assert IsChar('_')(s[|a|]);
    }
  }

  lemma {:induction false} CapitalizeTwoWords(a: string, b: string)
    requires LowerWord(a) && LowerWord(b)
    ensures CapitalizeWords(a + " " + b) == Capitalized(a) + " " + Capitalized(b)
  {
    var spaced := a + " " + b;
    var r := CapitalizeWords(spaced);
    var expected := Capitalized(a) + " " + Capitalized(b);
    forall i | 0 <= i < |spaced| ensures r[i] == expected[i] {
      if i < |a| {
        assert spaced[i] == a[i] && expected[i] == Capitalized(a)[i];
        assert WordStart(spaced, i) <==> i == 0;
      } else if i > |a| {
        assert spaced[i] == b[i - |a| - 1] && expected[i] == Capitalized(b)[i - |a| - 1];
        assert WordStart(spaced, i) <==> i == |a| + 1;
      }
    }
  }

  /** `{n} bed{n !== 1 ? "s" : ""}`, and the same for baths. */
  function CountLabel(word: string, n: int): (r: string)
    ensures n == 1 <==> r == word
    ensures n != 1 ==> r == word + "s"
  {
    if n != 1 then word + "s" else word
  }

  // ---------------------------------------------------------------------------------------
  // Amenities

  /** The amenity row: hidden for no amenities, otherwise the first three as badges and a
      "+k more" badge for the rest. */
  datatype AmenityPreview = NoAmenities | Badges(shown: seq<string>, more: Option<nat>)

  function AmenitiesPreview(amenities: seq<string>): (p: AmenityPreview)
    ensures p.NoAmenities? <==> amenities == []
    ensures p.Badges? ==> |p.shown| <= 3 && |p.shown| <= |amenities| && p.shown == amenities[..|p.shown|]
    ensures p.Badges? ==> (p.more.Some? <==> |amenities| > 3)
    ensures p.Badges? && p.more.Some? ==> |p.shown| == 3 && |p.shown| + p.more.value == |amenities|
    ensures p.Badges? && p.more.None? ==> p.shown == amenities
  {
    if amenities == [] then NoAmenities
    else if |amenities| > 3 then Badges(amenities[..3], Some(|amenities| - 3))
    else Badges(amenities, None)
  }

  function MoreLabel(k: nat): string {
    "+" + NatToString(k) + " more"
  }

  // ---------------------------------------------------------------------------------------
  // Favourite heart

  /** The heart is drawn only for a tenant. */
  predicate ShowsHeart(user: Option<User>) {
    user.Some? && user.value.userType == Tenant
  }

  /** What a click on the heart does: one of two error toasts, nothing, or the callback
      with the property id and the flipped state. */
  datatype HeartClick = LoginRequired | TenantsOnly | NoCallback | Toggle(propertyId: string, favorite: bool)

  function ToastText(c: HeartClick): string {
    match c
    case LoginRequired => "Please login to save properties"
    case TenantsOnly => "Only tenants can save properties"
    case _ => ""
  }

  /** `handleToggleFavorite`'s guards, in order. */
  function HandleToggleFavorite(isAuthenticated: bool, user: Option<User>, hasCallback: bool,
                                propertyId: string, isFavorite: bool): (c: HeartClick)
    ensures c.Toggle? <==> isAuthenticated && ShowsHeart(user) && hasCallback
    ensures c.Toggle? ==> c.propertyId == propertyId && c.favorite == !isFavorite
    ensures c == LoginRequired <==> !isAuthenticated
    ensures c == TenantsOnly <==> isAuthenticated && !ShowsHeart(user)
  {
    if !isAuthenticated then LoginRequired
    else if !(user.Some? && user.value.userType == Tenant) then TenantsOnly
    else if !hasCallback then NoCallback
    else Toggle(propertyId, !isFavorite)
  }
}
