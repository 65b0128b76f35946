/**
 * The profile settings panel: the edit form for the display name and theme
 * colour, the avatar initials, and the usage caps shown for each tier.
 *
 * The initials are computed the same way on the chat page. Saving is
 * delegated to the owner's `onSave`, whose success or failure is a parameter.
 */
module Profile {
  import opened Wrappers
  import opened Text
  import opened Types

  /** The eight colours offered by the palette. */
  const ThemeColors: seq<string> := ["#3B82F6", "#8B5CF6", "#EC4899", "#F59E0B", "#10B981", "#EF4444", "#6366F1", "#14B8A6"]

  const Undefined := "undefined"

  /** The text JavaScript produces for `w[0]` when it is concatenated: the first character, or "undefined" for an empty word. */
  function FirstOrUndefined(w: string): string {
    if w == [] then Undefined else [w[0]]
  }

  /**
   * The initials of a non-empty profile name AS WRITTEN:
   * `(names[0][0] + names[1][0]).toUpperCase()` over `name.split(' ')`,
   * else `name.substring(0, 2).toUpperCase()`. An empty word turns its
   * letter into the text "undefined"; two empty words add `undefined +
   * undefined`, which is `NaN`, and `NaN.toUpperCase()` throws (`None`).
   */
  function NameInitialsAsWritten(name: string): (r: Option<string>)
    ensures |SplitOn(name, ' ')| < 2 ==> r == Some(Upper(Take(name, 2)))
  {
    var names := SplitOn(name, ' ');
    if |names| >= 2 then
      if names[0] == [] && names[1] == [] then None
      else Some(Upper(FirstOrUndefined(names[0]) + FirstOrUndefined(names[1])))
    else Some(Upper(Take(name, 2)))
  }

  /**
   * The discrepancy: one word followed by a space splits into the word and
   * an empty word, so the "initials" are the word's first letter followed by
   * "UNDEFINED", ten characters rather than two.
   */
  lemma TrailingSpaceAsWritten(w: string)
    requires w != [] && ' ' !in w
    ensures NameInitialsAsWritten(w + [' ']) == Some(Upper([w[0]] + Undefined))
    ensures |NameInitialsAsWritten(w + [' ']).value| == 10
  {
    SplitOnWord([], ' ');
    SplitOnSeparated(w, ' ', []);
    assert w + [' '] + [] == w + [' '];
  }

  /** A name of one space splits into two empty words, and the page throws. */
  lemma LoneSpaceAsWritten()
    ensures NameInitialsAsWritten([' ']) == None
  {
    SplitOnWord([], ' ');
    SplitOnSeparated([], ' ', []);
    assert [] + [' '] + [] == [' '];
  }

  /** The words of a split, without the empty ones that repeated, leading or trailing spaces leave. */
  function NonEmptyWords(parts: seq<string>): (r: seq<string>)
    ensures |r| <= |parts|
    ensures forall k :: 0 <= k < |r| ==> r[k] != [] && r[k] in parts
  {
    if parts == [] then []
    else if parts[0] == [] then NonEmptyWords(parts[1..])
    else [parts[0]] + NonEmptyWords(parts[1..])
  }

  /**
   * The initials as evidently intended: the first letters of the first two
   * words, upper-cased; a single word gives its first two characters.
   */
  function NameInitials(name: string): (r: string)
    ensures |r| <= 2
    ensures |NonEmptyWords(SplitOn(name, ' '))| >= 2 ==> |r| == 2
    ensures !IsBlank(name) ==> r != []
  {
    var words := NonEmptyWords(SplitOn(name, ' '));
    if |words| >= 2 then Upper([words[0][0], words[1][0]])
    else if |words| == 1 then
      NonBlankHasWord(name);
      Upper(Take(words[0], 2))
    else Upper(Take(name, 2))
  }

  /** A name with a non-space character has a non-empty word. */
  lemma NonBlankHasWord(name: string)
    ensures !IsBlank(name) ==> |NonEmptyWords(SplitOn(name, ' '))| >= 1
  {
    if !IsBlank(name) {
      var i :| 0 <= i < |name| && !IsSpace(name[i]);
      SplitKeepsChar(name, i);
      var w :| w in SplitOn(name, ' ') && w != [];
      NonEmptyWordsKeep(SplitOn(name, ' '), w);
    }
  }

  /** Every character other than the separator ends up in some part of the split. */
  lemma {:induction false} SplitKeepsChar(s: string, i: nat)
    requires i < |s| && s[i] != ' '
    ensures exists w :: w in SplitOn(s, ' ') && w != []
    decreases |s|
  {
    var parts := SplitOn(s, ' ');
    if s[0] == ' ' {
      SplitKeepsChar(s[1..], i - 1);
      var w :| w in SplitOn(s[1..], ' ') && w != [];
      assert w in parts;
    } else {
      assert parts[0] != [] && parts[0] in parts;
    }
  }

  lemma {:induction false} NonEmptyWordsKeep(parts: seq<string>, w: string)
    requires w in parts && w != []
    ensures |NonEmptyWords(parts)| >= 1
    decreases |parts|
  {
    if parts[0] == [] {
      assert w in parts[1..];
      NonEmptyWordsKeep(parts[1..], w);
    }
  }

  /**
   * Where the code does what was meant, the correction agrees with it: when
   * the first two parts of the split are non-empty words, both give their
   * first letters upper-cased.
   */
  lemma {:induction false} InitialsCorrectionAgrees(name: string)
    requires |SplitOn(name, ' ')| >= 2 && SplitOn(name, ' ')[0] != [] && SplitOn(name, ' ')[1] != []
    ensures NameInitialsAsWritten(name) == Some(NameInitials(name))
  {
    var parts := SplitOn(name, ' ');
    assert parts[1..][0] == parts[1];
    assert NonEmptyWords(parts)[0] == parts[0];
    assert NonEmptyWords(parts)[1..] == NonEmptyWords(parts[1..]);
    assert NonEmptyWords(parts[1..])[0] == parts[1];
    assert FirstOrUndefined(parts[0]) + FirstOrUndefined(parts[1]) == [parts[0][0], parts[1][0]];
  }

  /** A word and then nothing, or a space and more: the word is the first part of the split. */
  lemma WordThenRest(w: string, rest: string)
    requires w != [] && ' ' !in w && (rest == [] || rest[0] == ' ')
    ensures SplitOn(w + rest, ' ') == [w] + (if rest == [] then [] else SplitOn(rest[1..], ' '))
  {
    if rest == [] {
      assert w + rest == w;
      SplitOnWord(w, ' ');
    } else {
      assert w + rest == w + [' '] + rest[1..];
      SplitOnSeparated(w, ' ', rest[1..]);
    }
  }

  /**
   * A name that starts with two words separated by one space, followed by
   * nothing or by a space and anything ("Ann Lee", "Ann Lee Smith"): both
   * versions give the first letters of the two words, upper-cased.
   */
  lemma TwoWordInitials(a: string, b: string, rest: string)
    requires a != [] && b != [] && ' ' !in a && ' ' !in b && (rest == [] || rest[0] == ' ')
    ensures NameInitials(a + [' '] + b + rest) == Upper([a[0], b[0]])
    ensures NameInitialsAsWritten(a + [' '] + b + rest) == Some(Upper([a[0], b[0]]))
  {
    var name := a + [' '] + b + rest;
    WordThenRest(b, rest);
    assert name == a + [' '] + (b + rest);
    SplitOnSeparated(a, ' ', b + rest);
    var parts := SplitOn(name, ' ');
    assert parts[0] == a && parts[1] == b;
    InitialsCorrectionAgrees(name);
    assert FirstOrUndefined(a) + FirstOrUndefined(b) == [a[0], b[0]];
  }

  /** `n` spaces. */
  function Spaces(n: nat): (r: string)
    ensures |r| == n
  {
    seq(n, _ => ' ')
  }

  /** `n` empty words. */
  function Empties(n: nat): (r: seq<string>)
    ensures |r| == n
  {
    seq(n, _ => [])
  }

  /** Each leading space splits off one empty word. */
  lemma {:induction false} SplitLeadingSpaces(n: nat, s: string)
    ensures SplitOn(Spaces(n) + s, ' ') == Empties(n) + SplitOn(s, ' ')
  {
    if n > 0 {
      var t := Spaces(n) + s;
      calc {
        SplitOn(t, ' ');
      == { assert t[0] == ' '; }
        [[]] + SplitOn(t[1..], ' ');
      == { assert t[1..] == Spaces(n - 1) + s; }
        [[]] + SplitOn(Spaces(n - 1) + s, ' ');
      == { SplitLeadingSpaces(n - 1, s); }
        [[]] + (Empties(n - 1) + SplitOn(s, ' '));
      == { assert Empties(n) == [[]] + Empties(n - 1); }
        Empties(n) + SplitOn(s, ' ');
      }
    } else {
      assert Spaces(n) + s == s;
      assert Empties(n) + SplitOn(s, ' ') == SplitOn(s, ' ');
    }
  }

  /** Empty words in front do not count. */
  lemma {:induction false} NonEmptyWordsSkip(n: nat, parts: seq<string>)
    ensures NonEmptyWords(Empties(n) + parts) == NonEmptyWords(parts)
  {
    if n > 0 {
      NonEmptyWordsSkip(n - 1, parts);
      var q := Empties(n) + parts;
      assert q[0] == [];
      assert q[1..] == Empties(n - 1) + parts by {
        assert Empties(n) == [[]] + Empties(n - 1);
      }
      assert NonEmptyWords(q) == NonEmptyWords(q[1..]);
    } else {
      assert Empties(n) + parts == parts;
    }
  }

  /** A non-empty word in front is the first word. */
  lemma NonEmptyWordsCons(w: string, parts: seq<string>)
    requires w != []
    ensures NonEmptyWords([w] + parts) == [w] + NonEmptyWords(parts)
  {
    assert ([w] + parts)[1..] == parts;
  }

  /** The split of a spaced two-word name, with `t` the split of what follows the second word. */
  lemma SplitSpacedName(i: nat, j: nat, a: string, b: string, rest: string)
    requires j >= 1 && a != [] && b != [] && ' ' !in a && ' ' !in b && (rest == [] || rest[0] == ' ')
    ensures SplitOn(Spaces(i) + a + Spaces(j) + b + rest, ' ') ==
      Empties(i) + ([a] + (Empties(j - 1) + ([b] + (if rest == [] then [] else SplitOn(rest[1..], ' ')))))
  {
    var afterA := a + Spaces(j) + b + rest;
    var mid := Spaces(j - 1) + (b + rest);
    calc {
      SplitOn(Spaces(i) + a + Spaces(j) + b + rest, ' ');
    == { assert Spaces(i) + a + Spaces(j) + b + rest == Spaces(i) + afterA; }
      SplitOn(Spaces(i) + afterA, ' ');
    == { SplitLeadingSpaces(i, afterA); }
      Empties(i) + SplitOn(afterA, ' ');
    == { assert Spaces(j) == [' '] + Spaces(j - 1);
         assert afterA == a + [' '] + mid;
         SplitOnSeparated(a, ' ', mid); }
      Empties(i) + ([a] + SplitOn(mid, ' '));
    == { SplitLeadingSpaces(j - 1, b + rest); }
      Empties(i) + ([a] + (Empties(j - 1) + SplitOn(b + rest, ' ')));
    == { WordThenRest(b, rest); }
      Empties(i) + ([a] + (Empties(j - 1) + ([b] + (if rest == [] then [] else SplitOn(rest[1..], ' ')))));
    }
  }

  /**
   * The correction reads the first two words whatever the spaces around
   * them: leading spaces, several spaces between the words, and anything
   * after a space behind the second word.
   */
  lemma SpacedWordInitials(i: nat, j: nat, a: string, b: string, rest: string)
    requires j >= 1 && a != [] && b != [] && ' ' !in a && ' ' !in b && (rest == [] || rest[0] == ' ')
    ensures NameInitials(Spaces(i) + a + Spaces(j) + b + rest) == Upper([a[0], b[0]])
  {
    var t := if rest == [] then [] else SplitOn(rest[1..], ' ');
    SplitSpacedName(i, j, a, b, rest);
    NonEmptyWordsSkip(i, [a] + (Empties(j - 1) + ([b] + t)));
    NonEmptyWordsCons(a, Empties(j - 1) + ([b] + t));
    NonEmptyWordsSkip(j - 1, [b] + t);
    NonEmptyWordsCons(b, t);
    var words := NonEmptyWords(SplitOn(Spaces(i) + a + Spaces(j) + b + rest, ' '));
    assert words == [a] + ([b] + NonEmptyWords(t));
  }


  /** One word and a trailing space: the correction gives the word's first two characters. */
  lemma TrailingSpaceCorrected(w: string)
    requires w != [] && ' ' !in w
    ensures NameInitials(w + [' ']) == Upper(Take(w, 2))
  {
    SplitOnWord([], ' ');
    SplitOnSeparated(w, ' ', []);
    assert w + [' '] + [] == w + [' '];
    var parts: seq<string> := [w, []];
    assert parts[1..] == [[]] && parts[1..][1..] == [];
    assert NonEmptyWords(parts) == [w];
  }

  /**
   * `getUserInitials`: a non-empty profile name decides; otherwise the first
   * two characters of the display name, or else of the email, upper-cased.
   */
  function UserInitials(profileName: Option<string>, user: User): (r: string)
    ensures |r| <= 2
    ensures Truthy(profileName) ==> r == NameInitials(profileName.value)
    ensures !Truthy(profileName) && Truthy(user.displayName) ==> r == Upper(Take(user.displayName.value, 2))
    ensures !Truthy(profileName) && !Truthy(user.displayName) ==> r == Upper(Take(user.email, 2))
    ensures Truthy(profileName) && !IsBlank(profileName.value) ==> r != []
  {
    if Truthy(profileName) then NameInitials(profileName.value)
    else if Truthy(user.displayName) then Upper(Take(user.displayName.value, 2))
    else Upper(Take(user.email, 2))
  }

  /** The name the edit box starts from: the display name, or the email before '@'. */
  function InitialEditName(user: User): (r: string)
    ensures Truthy(user.displayName) ==> r == user.displayName.value
    ensures !Truthy(user.displayName) ==> r == BeforeFirst(user.email, '@') && '@' !in r && StartsWith(user.email, r)
  {
    Or(user.displayName, BeforeFirst(user.email, '@'))
  }

  /** The daily token allowance shown for a tier. */
  datatype TokenCap = DailyTokens(amount: nat) | UnlimitedTokens | LimitedTokens

  function TokenCapFor(t: UserTier): TokenCap {
    match t
    case Free => DailyTokens(5000)
    case Pro => DailyTokens(50000)
    case Ultra => UnlimitedTokens
    case Guest => LimitedTokens
  }

  /** The daily image allowance shown for a tier. */
  function ImageCapFor(t: UserTier): nat {
    match t
    case Free => 3
    case Pro => 20
    case Ultra => 30
    case Guest => 0
  }

  /**
   * The caps rise with the paid tier: Pro allows ten times Free's tokens,
   * Ultra has no token cap and the most images, and only a guest gets no images.
   */
  lemma CapsRiseWithTier(t: UserTier)
    ensures ImageCapFor(t) == 0 <==> t == Guest
    ensures ImageCapFor(t) <= ImageCapFor(Ultra)
    ensures TokenCapFor(Pro).amount == 10 * TokenCapFor(Free).amount
    ensures ImageCapFor(Free) < ImageCapFor(Pro) < ImageCapFor(Ultra)
    ensures TokenCapFor(t).UnlimitedTokens? <==> t == Ultra
  {
  }

  class ProfileEditor {
    /** The user shown, as passed in by the page. */
    const user: User
    var editMode: bool
    var editDisplayName: string
    var selectedThemeColor: string
    var saving: bool

    constructor (user: User)
      ensures this.user == user && !editMode && !saving
      ensures editDisplayName == InitialEditName(user) && selectedThemeColor == user.themeColor
    {
      this.user := user;
      editMode := false;
      editDisplayName := InitialEditName(user);
      selectedThemeColor := user.themeColor;
      saving := false;
    }

    method StartEdit()
      modifies this
      ensures editMode
      ensures editDisplayName == old(editDisplayName) && selectedThemeColor == old(selectedThemeColor) && saving == old(saving)
    {
      editMode := true;
    }

    method TypeName(s: string)
      modifies this
      ensures editDisplayName == s
      ensures editMode == old(editMode) && selectedThemeColor == old(selectedThemeColor) && saving == old(saving)
    {
      editDisplayName := s;
    }

    /** A palette button: only the eight offered colours can be picked. */
    method PickColor(color: string)
      requires color in ThemeColors
      modifies this
      ensures selectedThemeColor == color
      ensures editMode == old(editMode) && editDisplayName == old(editDisplayName) && saving == old(saving)
    {
      selectedThemeColor := color;
    }

    /**
     * `handleSave`: the edited name and colour are handed to the owner; edit
     * mode ends only when that succeeds, and saving is over either way.
     */
    method Save(succeeded: bool) returns (sentName: string, sentColor: string)
      modifies this
      ensures sentName == old(editDisplayName) && sentColor == old(selectedThemeColor)
      ensures !saving
      ensures succeeded ==> !editMode
      ensures !succeeded ==> editMode == old(editMode)
      ensures editDisplayName == old(editDisplayName) && selectedThemeColor == old(selectedThemeColor)
    {
      saving := true;
      sentName, sentColor := editDisplayName, selectedThemeColor;
      if succeeded {
        editMode := false;
      }
      saving := false;
    }

    /** `handleCancel`: the name and colour go back to the user's, and edit mode ends. */
    method Cancel()
      modifies this
      ensures editDisplayName == InitialEditName(user) && selectedThemeColor == user.themeColor && !editMode
      ensures saving == old(saving)
    {
      editDisplayName := InitialEditName(user);
      selectedThemeColor := user.themeColor;
      editMode := false;
    }
  }
}
