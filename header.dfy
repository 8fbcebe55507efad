/** The header's avatar initials and the label of its user menu. */
module Header {
  import opened Js
  import opened Text
  import opened Seqs
  import Auth

  /** `user?.[key]`: undefined when there is no user or no such claim. */
  function Claim(user: Option<Auth.User>, key: string): (r: Option<Json>)
    ensures r.Some? <==> user.Some? && key in user.value
  {
    if user.Some? then Member(JObj(user.value), key) else None
  }

  /** `s.substring(0, 2)`. */
  function Prefix2(s: string): (r: string)
    ensures r <= s && |r| == if |s| < 2 then |s| else 2
  {
    if |s| < 2 then s else s[..2]
  }

  /** `s[0]` when concatenated with a string: the first character, or the text
      "undefined" when `s` is empty. */
  function FirstOrUndefined(s: string): (r: string)
    ensures s != "" ==> r == [s[0]]
    ensures s == "" ==> r == "undefined"
  {
    if s == "" then "undefined" else [s[0]]
  }

  /** `getInitials` as written; None where it throws a TypeError: a `sub` that
      is neither a string nor nullish, a truthy `name` that is not a string,
      or a multi-word name whose first and last words are both empty (their
      `[0]` are both undefined, their sum is NaN, and NaN has no `toUpperCase`). */
  function InitialsAsWritten(user: Option<Auth.User>): (r: Option<string>)
    ensures !Present(Claim(user, "name")) && (Claim(user, "sub").None? || Claim(user, "sub").value.JNull?) ==>
      r == Some("U")
  {
    var name := Claim(user, "name");
    if !Present(name) then
      var sub := Claim(user, "sub");
      if sub.None? || sub.value.JNull? then Some("U")
      else if !sub.value.JStr? then None
      else if sub.value.s == "" then Some("U")
      else Some(Upper(Prefix2(sub.value.s)))
    else if !name.value.JStr? then None
    else
      var parts := Split(name.value.s, ' ');
      if |parts| == 1 then Some(Upper(Prefix2(parts[0])))
      else
        var first, last := parts[0], parts[|parts| - 1];
        if first == "" && last == "" then None
        else Some(Upper(FirstOrUndefined(first) + FirstOrUndefined(last)))
  }

  /** Without a name, and with a one-word name, the initials have one or two
      characters: the upper-cased start of `sub` or of the name, or "U". */
  lemma ShortCases(user: Option<Auth.User>)
    requires var name := Claim(user, "name");
      !Present(name) || (name.value.JStr? && |Split(name.value.s, ' ')| == 1)
    ensures var r := InitialsAsWritten(user); r.Some? ==> 1 <= |r.value| <= 2
  {
  }

  /** A multi-word name whose first and last words are non-empty gives their two
      initials, upper-cased. */
  lemma TwoWordInitials(user: Option<Auth.User>)
    requires var name := Claim(user, "name");
      Present(name) && name.value.JStr? && |Split(name.value.s, ' ')| > 1
    requires var parts := Split(Claim(user, "name").value.s, ' ');
      parts[0] != "" && parts[|parts| - 1] != ""
    ensures var parts := Split(Claim(user, "name").value.s, ' ');
      InitialsAsWritten(user) == Some([UpperChar(parts[0][0]), UpperChar(parts[|parts| - 1][0])])
  {
    var parts := Split(Claim(user, "name").value.s, ' ');
    var joined := FirstOrUndefined(parts[0]) + FirstOrUndefined(parts[|parts| - 1]);
    assert joined == [parts[0][0], parts[|parts| - 1][0]];
    assert Upper(joined) == [UpperChar(joined[0]), UpperChar(joined[1])];
  }

  // ---------------------------------------------------------------------------
  // The initials as evidently intended

  /** The words of a name: the pieces between spaces, without empty ones. */
  function Words(s: string): (r: seq<string>)
    ensures forall k :: 0 <= k < |r| ==> r[k] != ""
  {
    var w := Filter(Split(s, ' '), (p: string) => p != "");
    assert forall k :: 0 <= k < |w| ==> w[k] in w;
    w
  }

  /** The start of `sub`, or "U". */
  function SubInitials(sub: Option<Json>): (r: string)
    ensures 1 <= |r| <= 2
  {
    if Present(sub) && sub.value.JStr? then Upper(Prefix2(sub.value.s)) else "U"
  }

  /** `getInitials` built from the name's non-empty words: always one or two characters. */
  function Initials(user: Option<Auth.User>): (r: string)
    ensures 1 <= |r| <= 2
  {
    var name := Claim(user, "name");
    var words := if Present(name) && name.value.JStr? then Words(name.value.s) else [];
    if |words| == 0 then SubInitials(Claim(user, "sub"))
    else if |words| == 1 then Upper(Prefix2(words[0]))
    else Upper([words[0][0], words[|words| - 1][0]])
  }

  /** Where no word of the name is empty and `sub` is a string or missing, the
      code as written already gives the intended initials. */
  lemma InitialsAgree(user: Option<Auth.User>)
    requires var sub := Claim(user, "sub"); sub.None? || sub.value.JNull? || sub.value.JStr?
    requires var name := Claim(user, "name");
      Present(name) ==> name.value.JStr? && forall k :: 0 <= k < |Split(name.value.s, ' ')| ==> Split(name.value.s, ' ')[k] != ""
    ensures InitialsAsWritten(user) == Some(Initials(user))
  {
    var name := Claim(user, "name");
    if Present(name) {
      var parts := Split(name.value.s, ' ');
      FilterAll(parts, (p: string) => p != "");
      assert Words(name.value.s) == parts;
      if |parts| > 1 {
        var joined := FirstOrUndefined(parts[0]) + FirstOrUndefined(parts[|parts| - 1]);
        assert joined == [parts[0][0], parts[|parts| - 1][0]];
      }
    }
  }

  /** A word followed by one space splits into the word and an empty piece. */
  lemma SplitTrailingSpace(w: string)
    requires ' ' !in w
    ensures Split(w + " ", ' ') == [w, ""]
  {
    var s := w + " ";
    assert s[|w|] == ' ' && s[..|w|] == w;
    assert IndexOf(s, ' ') == |w|;
    assert s[|w| + 1..] == "";
  }

  /** A one-word name with a trailing space: as written the avatar shows the
      word's initial followed by "UNDEFINED" (for "Max ": "MUNDEFINED"); the
      intended initials are the word's first two letters. A name of one space
      makes `getInitials` throw; the intended initials fall back to `sub`. */
  lemma TrailingSpaceName(w: string, user: Auth.User)
    requires ' ' !in w
    requires "name" in user && user["name"] == JStr(w + " ")
    ensures w != "" ==> InitialsAsWritten(Some(user)) == Some(Upper([w[0]] + "undefined"))
    ensures w != "" ==> Initials(Some(user)) == Upper(Prefix2(w))
    ensures w == "" ==> InitialsAsWritten(Some(user)).None?
    ensures w == "" ==> Initials(Some(user)) == SubInitials(Claim(Some(user), "sub"))
  {
    var name := Claim(Some(user), "name");
    assert name == Some(JStr(w + " "));
    assert Present(name);
    SplitTrailingSpace(w);
    assert Words(w + " ") == (if w != "" then [w] else []) by {
      var p := (p: string) => p != "";
      assert [w, ""][1..] == [""] && [""][1..] == [];
      assert Filter([w, ""], p) == (if w != "" then [w] else []) + Filter([""], p);
    }
    if w != "" {
      assert FirstOrUndefined(w) + FirstOrUndefined("") == [w[0]] + "undefined";
    }
  }

  /** The trailing-space case for the name "Max" as written: "MUNDEFINED". */
  lemma MaxAsWritten(user: Auth.User, w: string)
    requires w == "Max" && "name" in user && user["name"] == JStr(w + " ")
    ensures InitialsAsWritten(Some(user)) == Some("MUNDEFINED")
  {
    calc {
      InitialsAsWritten(Some(user));
      { TrailingSpaceName(w, user); }
      Some(Upper([w[0]] + "undefined"));
      { assert [w[0]] + "undefined" == "Mundefined"; }
      Some(Upper("Mundefined"));
      { var r := Upper("Mundefined");
        assert r[0] == 'M' && r[1] == 'U' && r[2] == 'N' && r[3] == 'D' && r[4] == 'E';
        assert r[5] == 'F' && r[6] == 'I' && r[7] == 'N' && r[8] == 'E' && r[9] == 'D';
        assert r == "MUNDEFINED"; }
      Some("MUNDEFINED");
    }
  }

  /** The trailing-space case for the name "Max" as intended: "MA". */
  lemma MaxIntended(user: Auth.User, w: string)
    requires w == "Max" && "name" in user && user["name"] == JStr(w + " ")
    ensures Initials(Some(user)) == "MA"
  {
    TrailingSpaceName(w, user);
    var r := Upper(Prefix2(w));
    assert Prefix2(w) == "Ma";
    assert r[0] == 'M' && r[1] == 'A';
  }

  // ---------------------------------------------------------------------------
  // The menu label

  /** `user?.name || user?.sub`. */
  function MenuLabel(user: Option<Auth.User>): (r: Option<Json>)
    ensures Present(Claim(user, "name")) ==> r == Claim(user, "name")
    ensures !Present(Claim(user, "name")) ==> r == Claim(user, "sub")
  {
    Or(Claim(user, "name"), Claim(user, "sub"))
  }

  /** Without a name the avatar shows the upper-cased start of the label. */
  lemma InitialsFollowLabel(user: Option<Auth.User>)
    requires !Present(Claim(user, "name"))
    requires var shown := MenuLabel(user); Present(shown) && shown.value.JStr?
    ensures InitialsAsWritten(user) == Some(Upper(Prefix2(MenuLabel(user).value.s)))
  {
  }
}
