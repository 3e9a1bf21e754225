/** `getInitials` of the profile page (the user list and the user menu carry
    identical copies): the upper-cased first character of each space-separated
    part of the name, at most two of them, and 'U' for a missing or empty name. */
module ProfilePage {
  import opened Wrappers
  import Text

  /** `s.split(' ')`: the pieces between single spaces, empty ones included. */
  function Split(s: string): (r: seq<string>)
    ensures |r| >= 1
    ensures forall k :: 0 <= k < |r| ==> ' ' !in r[k]
  {
    if s == [] then [""]
    else if s[0] == ' ' then [""] + Split(s[1..])
    else
      var rest := Split(s[1..]);
      [[s[0]] + rest[0]] + rest[1..]
  }

  /** `parts.join(' ')`. */
  function Join(parts: seq<string>): string
    requires |parts| >= 1
  {
    if |parts| == 1 then parts[0] else parts[0] + " " + Join(parts[1..])
  }

  /** Splitting on spaces and joining with spaces gives the name back. */
  lemma {:induction false} JoinSplit(s: string)
    ensures Join(Split(s)) == s
  {
    if s != [] {
      JoinSplit(s[1..]);
      var rest := Split(s[1..]);
      if s[0] == ' ' {
        assert ([""] + rest)[1..] == rest;
      } else {
        var parts := [[s[0]] + rest[0]] + rest[1..];
        if |rest| == 1 {
          assert s == [s[0]] + s[1..];
        } else {
          assert parts[1..] == rest[1..];
          assert s == [s[0]] + s[1..];
        }
      }
    }
  }

  /** `part[0]`, with the undefined of an empty part joined as nothing. */
  function Head(part: string): (r: string)
    ensures |r| <= 1
  {
    if part == [] then [] else [part[0]]
  }

  /** `parts.map(part => part[0]).join('')`. */
  function FirstChars(parts: seq<string>): (r: string)
    ensures |r| <= |parts|
  {
    if parts == [] then [] else Head(parts[0]) + FirstChars(parts[1..])
  }

  /** The characters that start a word: not a space, and first in the text or
      right after a space (`atStart` says whether the text so far ended with one). */
  function WordStarts(s: string, atStart: bool): string {
    if s == [] then []
    else if s[0] == ' ' then WordStarts(s[1..], true)
    else (if atStart then [s[0]] else []) + WordStarts(s[1..], false)
  }

  /** The split-map-join chain picks exactly the word-start characters. */
  lemma {:induction false} FirstCharsAreWordStarts(s: string)
    ensures FirstChars(Split(s)) == WordStarts(s, true)
    ensures FirstChars(Split(s)[1..]) == WordStarts(s, false)
  {
    if s != [] {
      FirstCharsAreWordStarts(s[1..]);
      var rest := Split(s[1..]);
      if s[0] == ' ' {
        assert Split(s) == [""] + rest;
        assert ([""] + rest)[1..] == rest;
      } else {
        var parts := [[s[0]] + rest[0]] + rest[1..];
        assert Split(s) == parts;
        assert parts[1..] == rest[1..];
        assert Head(parts[0]) == [s[0]];
      }
    }
  }

  /** Whether the text ends ready for a word start. */
  function EndsAtStart(s: string, atStart: bool): bool {
    if s == [] then atStart else s[|s| - 1] == ' '
  }

  lemma {:induction false} WordStartsAppend(a: string, b: string, atStart: bool)
    ensures WordStarts(a + b, atStart) == WordStarts(a, atStart) + WordStarts(b, EndsAtStart(a, atStart))
  {
    if a == [] {
      assert a + b == b;
    } else {
      var tail := a[1..];
      assert (a + b)[0] == a[0] && (a + b)[1..] == tail + b;
      var next := a[0] == ' ';
      WordStartsAppend(tail, b, next);
      assert EndsAtStart(tail, next) == EndsAtStart(a, atStart) by {
        if tail != [] {
          assert tail[|tail| - 1] == a[|a| - 1];
        }
      }
      var own := if a[0] == ' ' || !atStart then [] else [a[0]];
      assert WordStarts(a + b, atStart) == own + WordStarts(tail + b, next);
      assert WordStarts(a, atStart) == own + WordStarts(tail, next);
    }
  }

  /** A run of non-space characters starts no word after its first character. */
  lemma {:induction false} NoSpaceNoWordStarts(s: string)
    requires ' ' !in s
    ensures WordStarts(s, false) == []
  {
    if s != [] {
      assert ' ' !in s[1..];
      NoSpaceNoWordStarts(s[1..]);
    }
  }

  /** `substring(0, 2)`. */
  function TakeTwo(s: string): (r: string)
    ensures |r| <= 2 && Text.IsPrefix(r, s)
    ensures |s| >= 2 ==> |r| == 2
    ensures |s| < 2 ==> r == s
  {
    if |s| <= 2 then s else s[..2]
  }

  function GetInitials(name: Option<string>): (r: string)
    ensures name.None? || name.value == "" ==> r == "U"
    ensures |r| <= 2
  {
    if name.None? || name.value == "" then "U"
    else TakeTwo(Text.ToUpper(FirstChars(Split(name.value))))
  }

  /** The initials are the first two word-start characters, upper-cased. */
  lemma InitialsAreWordStarts(name: string)
    requires name != ""
    ensures GetInitials(Some(name)) == TakeTwo(Text.ToUpper(WordStarts(name, true)))
  {
    FirstCharsAreWordStarts(name);
  }

  /** Leading spaces and runs of spaces between words change nothing. */
  lemma ExtraSpacesIgnored(a: string, b: string)
    requires a != "" && b != ""
    ensures GetInitials(Some(" " + b)) == GetInitials(Some(b))
    ensures GetInitials(Some(a + "  " + b)) == GetInitials(Some(a + " " + b))
  {
    InitialsAreWordStarts(" " + b);
    InitialsAreWordStarts(b);
    assert (" " + b)[0] == ' ' && (" " + b)[1..] == b;
    InitialsAreWordStarts(a + "  " + b);
    InitialsAreWordStarts(a + " " + b);
    WordStartsAppend(a + "  ", b, true);
    WordStartsAppend(a + " ", b, true);
    WordStartsAppend(a, "  ", true);
    WordStartsAppend(a, " ", true);
    assert WordStarts("  ", EndsAtStart(a, true)) == [];
    assert WordStarts(" ", EndsAtStart(a, true)) == [];
  }

  /** A one-word name gives exactly its first letter, upper-cased. */
  lemma SingleWordOneInitial(word: string)
    requires word != "" && ' ' !in word
    ensures GetInitials(Some(word)) == [Text.UpperChar(word[0])]
  {
    InitialsAreWordStarts(word);
    NoSpaceNoWordStarts(word[1..]);
    assert WordStarts(word, true) == [word[0]] + WordStarts(word[1..], false);
  }

  /** A name of two space-free words gives the first letter of each, upper-cased. */
  lemma TwoWordsTwoInitials(first: string, second: string)
    requires first != "" && second != "" && ' ' !in first && ' ' !in second
    ensures GetInitials(Some(first + " " + second)) == [Text.UpperChar(first[0]), Text.UpperChar(second[0])]
  {
    InitialsAreWordStarts(first + " " + second);
    WordStartsAppend(first + " ", second, true);
    WordStartsAppend(first, " ", true);
    NoSpaceNoWordStarts(first[1..]);
    NoSpaceNoWordStarts(second[1..]);
    assert WordStarts(first, true) == [first[0]] + WordStarts(first[1..], false);
    assert WordStarts(second, true) == [second[0]] + WordStarts(second[1..], false);
  }
}
