/**
 * `src/components/layout/Header.tsx`: the avatar initials, the highlighted navigation link and
 * which role-specific links the bar shows.
 */
module Header {
  import opened Wrappers
  import opened Ascii
  import opened Types
  import Auth
  import AuthContext

  // ---------------------------------------------------------------------------------------
  // Initials

  /** `s.split(" ")`: at least one piece, empty pieces where spaces are adjacent or at an end. */
  function SplitOnSpace(s: string): (words: seq<string>)
    ensures |words| >= 1
    ensures forall i :: 0 <= i < |words| ==> ' ' !in words[i]
  {
    if s == [] then [""]
    else if s[0] == ' ' then [""] + SplitOnSpace(s[1..])
    else
      var rest := SplitOnSpace(s[1..]);
      [[s[0]] + rest[0]] + rest[1..]
  }

  /** `words.join(" ")`. */
  function JoinWithSpace(words: seq<string>): string
    requires |words| >= 1
  {
    if |words| == 1 then words[0] else words[0] + " " + JoinWithSpace(words[1..])
  }

  /** Joining the pieces with spaces gives back the string. */
  lemma {:induction false} JoinSplit(s: string)
    ensures JoinWithSpace(SplitOnSpace(s)) == s
  {
    if s != [] {
      JoinSplit(s[1..]);
      var rest := SplitOnSpace(s[1..]);
      if s[0] != ' ' {
        var words := SplitOnSpace(s);
        if |rest| > 1 {
          assert words[1..] == rest[1..];
        }
      }
    }
  }

  /** `.map(name => name[0]).join("")`: the first character of each piece; an empty piece
      gives `undefined`, which `join` renders as nothing. */
  function Heads(words: seq<string>): (r: string)
    ensures |r| <= |words|
  {
    if words == [] then []
    else (if words[0] != [] then [words[0][0]] else []) + Heads(words[1..])
  }

  /** The characters that begin a word: not a space, and first or right after a space.
      `afterSpace` says whether the previous character was a space (or there was none). */
  function WordInitials(s: string, afterSpace: bool): (r: string)
    ensures ' ' !in r
  {
    if s == [] then []
    else (if s[0] != ' ' && afterSpace then [s[0]] else []) + WordInitials(s[1..], s[0] == ' ')
  }

  /** Taking first characters of the split pieces is taking the word-initial characters. */
  lemma {:induction false} HeadsOfSplit(s: string)
    ensures Heads(SplitOnSpace(s)) == WordInitials(s, true)
    ensures Heads(SplitOnSpace(s)[1..]) == WordInitials(s, false)
  {
    if s != [] {
      HeadsOfSplit(s[1..]);
      var rest := SplitOnSpace(s[1..]);
      if s[0] == ' ' {
        assert SplitOnSpace(s)[1..] == rest;
      } else {
        var words := SplitOnSpace(s);
        assert words[1..] == rest[1..];
      }
    }
  }

  /** `getUserInitials`. */
  function UserInitials(user: Option<User>): (r: string)
    ensures user.None? || user.value.fullName == "" ==> r == "U"
    ensures |r| <= 2
    ensures user.Some? && user.value.fullName != "" ==>
      |r| <= |WordInitials(user.value.fullName, true)| &&
      r == ToUpper(WordInitials(user.value.fullName, true))[..|r|]
    ensures user.Some? && user.value.fullName != "" ==>
      |r| == if |WordInitials(user.value.fullName, true)| < 2 then |WordInitials(user.value.fullName, true)| else 2
  {
    if user.None? || user.value.fullName == "" then "U"
    else
      var all := ToUpper(Heads(SplitOnSpace(user.value.fullName)));
      HeadsOfSplit(user.value.fullName);
      if |all| <= 2 then all else all[..2]
  }

  /** A name of spaces only has no word, so the avatar is left blank rather than showing "U". */
  lemma {:induction false} BlankNameHasNoInitials(u: User)
    requires u.fullName == " "
    ensures UserInitials(Some(u)) == ""
  {
    HeadsOfSplit(u.fullName);
    assert WordInitials(" ", true) == [];
  }

  /** Two words give their two initials, upper-cased. */
  lemma {:induction false} TwoWordInitials(u: User, first: string, last: string)
    requires first != [] && last != [] && ' ' !in first && ' ' !in last
    requires u.fullName == first + " " + last
    ensures UserInitials(Some(u)) == [UpperChar(first[0]), UpperChar(last[0])]
  {
    TwoWordInitialChars(first, last);
    var all := ToUpper([first[0], last[0]]);
    assert all == [UpperChar(first[0]), UpperChar(last[0])];
  }

  lemma {:induction false} TwoWordInitialChars(first: string, last: string)
    requires first != [] && last != [] && ' ' !in first && ' ' !in last
    ensures Heads(SplitOnSpace(first + " " + last)) == [first[0], last[0]]
  {
    HeadsOfSplit(first + " " + last);
    TwoWordWordInitials(first, last);
  }

  lemma {:induction false} TwoWordWordInitials(first: string, last: string)
    requires first != [] && last != [] && ' ' !in first && ' ' !in last
    ensures WordInitials(first + " " + last, true) == [first[0], last[0]]
  {
    var tail := " " + last;
    assert first + " " + last == first + tail;
    SpaceThenWord(last);
    InitialsOfWord(first, true);
    assert first[|first| - 1] != ' ' by {
      assert first[|first| - 1] in first;
    }
    InitialsConcat(first, tail, true);
  }

  lemma {:induction false} SpaceThenWord(w: string)
    requires w != [] && ' ' !in w
    ensures WordInitials(" " + w, false) == [w[0]]
  {
    assert (" " + w)[0] == ' ' && (" " + w)[1..] == w;
    InitialsOfWord(w, true);
  }

  /** A single word contributes its first character when it starts after a space. */
  lemma {:induction false} InitialsOfWord(w: string, afterSpace: bool)
    requires w != [] && ' ' !in w
    ensures WordInitials(w, afterSpace) == if afterSpace then [w[0]] else []
  {
    NoInitialsInside(w[1..]);
  }

  lemma {:induction false} NoInitialsInside(w: string)
    requires ' ' !in w
    ensures WordInitials(w, false) == []
  {
    if w != [] {
      NoInitialsInside(w[1..]);
    }
  }

  /** Word-initial characters of a concatenation. */
  lemma {:induction false} InitialsConcat(a: string, b: string, afterSpace: bool)
    requires a != []
    ensures WordInitials(a + b, afterSpace) == WordInitials(a, afterSpace) + WordInitials(b, a[|a| - 1] == ' ')
  {
    assert (a + b)[0] == a[0];
    assert (a + b)[1..] == a[1..] + b;
    if |a| > 1 {
      InitialsConcat(a[1..], b, a[0] == ' ');
    } else {
      assert a[1..] + b == b;
    }
  }

  // ---------------------------------------------------------------------------------------
  // Navigation

  /** `isActivePath`: an exact comparison with the current path, so a nested page such as
      `/properties/1` does not highlight `/properties`. */
  predicate IsActivePath(pathname: string, path: string): (b: bool)
    ensures b <==> pathname == path
  {
    pathname == path
  }

  /** The Add Property link (desktop and mobile menus alike). */
  predicate ShowsAddProperty(isAuthenticated: bool, user: Option<User>) {
    isAuthenticated && user.Some? && user.value.userType == Landlord
  }

  /** The Favorites link (desktop and mobile menus alike). */
  predicate ShowsFavorites(isAuthenticated: bool, user: Option<User>) {
    isAuthenticated && user.Some? && user.value.userType == Tenant
  }

  /** At most one of the role links is shown, and at most one link is highlighted. */
  lemma {:induction false} RoleLinksExclusive(isAuthenticated: bool, user: Option<User>, pathname: string)
    ensures !(ShowsAddProperty(isAuthenticated, user) && ShowsFavorites(isAuthenticated, user))
    ensures !(IsActivePath(pathname, "/add-property") && IsActivePath(pathname, "/favorites"))
  {
  }

  /** With the provider's state as the bar reads it, the Add Property link appears only when a
      landlord is signed in and stored, and Favorites only for a stored tenant. */
  lemma {:induction false} RoleLinksFollowStoredUser(p: AuthContext.AuthProvider)
    requires p.Consistent()
    ensures ShowsAddProperty(p.IsAuthenticated(), p.user) ==> Auth.IsLandlord(p.storage.items)
    ensures ShowsFavorites(p.IsAuthenticated(), p.user) ==> Auth.IsTenant(p.storage.items)
    ensures !p.IsAuthenticated() ==> !ShowsAddProperty(p.IsAuthenticated(), p.user) && !ShowsFavorites(p.IsAuthenticated(), p.user)
  {
  }
}
