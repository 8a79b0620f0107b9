/**
 * formatEventName: the display title of an event, made from its class name by
 * putting a space in front of every capital letter A-Z and trimming the ends
 * ("LifeAsUsual" becomes "Life As Usual").
 */
module EventNames {
  import opened Text

  predicate IsAsciiUpper(c: char)
  {
    'A' <= c <= 'Z'
  }

  predicate IsAsciiLetter(c: char)
  {
    'A' <= c <= 'Z' || 'a' <= c <= 'z'
  }

  /** A name made of the letters A-Z and a-z only, as every event class name is. */
  predicate IsLetters(s: string)
  {
    forall i :: 0 <= i < |s| ==> IsAsciiLetter(s[i])
  }

  /** `s.replace(/([A-Z])/g, ' $1')`: every A-Z, and only those, gets a space in front. */
  function SpaceBeforeCapitals(s: string): string
  {
    if s == [] then []
    else (if IsAsciiUpper(s[0]) then [' ', s[0]] else [s[0]]) + SpaceBeforeCapitals(s[1..])
  }

  function FormatEventName(eventName: string): string
  {
    Trim(SpaceBeforeCapitals(eventName))
  }

  /** s with every space deleted. */
  function RemoveSpaces(s: string): string
  {
    if s == [] then [] else (if s[0] == ' ' then [] else [s[0]]) + RemoveSpaces(s[1..])
  }

  /** In t, a character is a space exactly when an A-Z follows it. */
  predicate SpacesMarkCapitals(t: string)
  {
    forall i :: 0 <= i < |t| ==> (t[i] == ' ' <==> i + 1 < |t| && IsAsciiUpper(t[i + 1]))
  }

  /** The shape of SpaceBeforeCapitals on a letters-only name. */
  lemma {:induction false} SpacedShape(s: string)
    requires IsLetters(s)
    ensures var t := SpaceBeforeCapitals(s);
      SpacesMarkCapitals(t) &&
      (forall i :: 0 <= i < |t| ==> t[i] == ' ' || IsAsciiLetter(t[i])) &&
      (t == [] <==> s == []) &&
      (t != [] ==> !IsAsciiUpper(t[0]) && t[|t| - 1] == s[|s| - 1]) &&
      (t != [] ==> (t[0] == ' ' <==> IsAsciiUpper(s[0])))
  {
    if s != [] {
      var rest := SpaceBeforeCapitals(s[1..]);
      assert IsLetters(s[1..]) by {
        forall i | 0 <= i < |s[1..]| ensures IsAsciiLetter(s[1..][i]) { assert s[1..][i] == s[i + 1]; }
      }
      SpacedShape(s[1..]);
      var head := if IsAsciiUpper(s[0]) then [' ', s[0]] else [s[0]];
      var t := head + rest;
      assert t == SpaceBeforeCapitals(s);
      forall i | 0 <= i < |t| ensures t[i] == ' ' <==> i + 1 < |t| && IsAsciiUpper(t[i + 1]) {
        if i >= |head| {
          assert t[i] == rest[i - |head|];
          if i + 1 < |t| { assert t[i + 1] == rest[i + 1 - |head|]; }
        } else if i + 1 == |head| {
          assert t[i] == s[0];
          if i + 1 < |t| { assert t[i + 1] == rest[0]; }
        }
      }
      forall i | 0 <= i < |t| ensures t[i] == ' ' || IsAsciiLetter(t[i]) {
        if i >= |head| { assert t[i] == rest[i - |head|]; }
      }
      if rest == [] {
        assert s[1..] == [];
        assert t[|t| - 1] == s[0];
      } else {
        assert t[|t| - 1] == rest[|rest| - 1];
        assert s[|s| - 1] == s[1..][|s[1..]| - 1];
      }
    }
  }

  /** Deleting the inserted spaces gives back a name that had none. */
  lemma {:induction false} RemoveSpacesUndoesSpacing(s: string)
    requires forall i :: 0 <= i < |s| ==> s[i] != ' '
    ensures RemoveSpaces(SpaceBeforeCapitals(s)) == s
  {
    if s != [] {
      var rest := SpaceBeforeCapitals(s[1..]);
      assert forall i :: 0 <= i < |s[1..]| ==> s[1..][i] != ' ' by {
        forall i | 0 <= i < |s[1..]| ensures s[1..][i] != ' ' { assert s[1..][i] == s[i + 1]; }
      }
      RemoveSpacesUndoesSpacing(s[1..]);
      if IsAsciiUpper(s[0]) {
        calc {
          RemoveSpaces(SpaceBeforeCapitals(s));
          RemoveSpaces([' ', s[0]] + rest);
          { assert ([' ', s[0]] + rest)[1..] == [s[0]] + rest; }
          RemoveSpaces([s[0]] + rest);
          { assert ([s[0]] + rest)[1..] == rest; }
          [s[0]] + RemoveSpaces(rest);
          [s[0]] + s[1..];
          s;
        }
      } else {
        assert ([s[0]] + rest)[1..] == rest;
      }
    }
  }

  /**
   * formatEventName on a letters-only name: the spaced name, less the space that
   * a leading capital would have put at its start. In the result a character is
   * a space exactly when a capital follows it, and it never starts with a space.
   */
  lemma {:induction false} FormatEventNameShape(s: string)
    requires IsLetters(s)
    ensures var t := SpaceBeforeCapitals(s);
      FormatEventName(s) == if s != [] && IsAsciiUpper(s[0]) then t[1..] else t
    ensures SpacesMarkCapitals(FormatEventName(s))
    ensures FormatEventName(s) == [] || FormatEventName(s)[0] != ' '
  {
    var t := SpaceBeforeCapitals(s);
    SpacedShape(s);
    if s != [] {
      var u := if IsAsciiUpper(s[0]) then t[1..] else t;
      assert u != [] && u[|u| - 1] == t[|t| - 1];
      assert !IsJsWhitespace(u[0]) by {
        if IsAsciiUpper(s[0]) { assert u[0] == t[1]; assert IsAsciiUpper(t[1]); }
      }
      assert TrimStart(t) == u by {
        if IsAsciiUpper(s[0]) { assert IsJsWhitespace(t[0]); }
      }
      forall i | 0 <= i < |u| ensures u[i] == ' ' <==> i + 1 < |u| && IsAsciiUpper(u[i + 1]) {
        if IsAsciiUpper(s[0]) {
          assert u[i] == t[i + 1];
          if i + 1 < |u| { assert u[i + 1] == t[i + 2]; }
        }
      }
    }
  }

  /** For letters-only names, deleting the spaces of the title gives back the name. */
  lemma {:induction false} FormatEventNameRoundTrip(s: string)
    requires IsLetters(s)
    ensures RemoveSpaces(FormatEventName(s)) == s
  {
    var t := SpaceBeforeCapitals(s);
    FormatEventNameShape(s);
    LettersHaveNoSpace(s);
    RemoveSpacesUndoesSpacing(s);
    if s != [] && IsAsciiUpper(s[0]) {
      var rest := SpaceBeforeCapitals(s[1..]);
      assert t == [' ', s[0]] + rest;
      assert t[1..] == [s[0]] + rest;
      assert RemoveSpaces(t) == RemoveSpaces(t[1..]);
    }
  }

  lemma LettersHaveNoSpace(s: string)
    requires IsLetters(s)
    ensures forall i :: 0 <= i < |s| ==> s[i] != ' '
  {
    forall i | 0 <= i < |s| ensures s[i] != ' ' { assert IsAsciiLetter(s[i]); }
  }
}
