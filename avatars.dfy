/** The avatar fallback text: a name's initials, as both the patient table
    and the appointment card compute them with
    `name.split(" ").map(n => n[0]).join("").toUpperCase().slice(0, 2)`. */
module Avatars {
  import opened Strings
  import opened Seqs

  /** `n[0]` joined as text: the first character, or nothing for an empty
      word (`undefined` joins as the empty string). */
  function FirstChar(word: string): string {
    if |word| == 0 then "" else [word[0]]
  }

  function FirstChars(words: seq<string>): (r: seq<string>)
    ensures |r| == |words|
  {
    seq(|words|, i requires 0 <= i < |words| => FirstChar(words[i]))
  }

  function Min(a: int, b: int): int { if a <= b then a else b }

  /** `getInitials`. */
  function GetInitials(name: string): (r: string)
    ensures |r| <= 2
    ensures forall i :: 0 <= i < |r| ==> !IsAsciiLower(r[i])
  {
    var upper := ToUpperCase(Join(FirstChars(Split(name, ' ')), ""));
    upper[..Min(2, |upper|)]
  }

  /** The test that keeps the words an extra space did not leave empty. */
  function NonEmpty(): string -> bool {
    (w: string) => w != ""
  }

  /** The words of a name: what is left of splitting at spaces once the
      empty pieces are dropped. */
  function Words(name: string): (r: seq<string>)
    ensures forall w :: w in r ==> w != ""
    ensures forall k :: 0 <= k < |r| ==> r[k] != ""
  {
    var r := Filter(Split(name, ' '), NonEmpty());
    assert forall k :: 0 <= k < |r| ==> r[k] in r;
    r
  }

  /** The first character of each word, in order. */
  function Heads(words: seq<string>): (r: string)
    requires forall w :: w in words ==> w != ""
    ensures |r| == |words|
  {
    seq(|words|, i requires 0 <= i < |words| => assert words[i] in words; words[i][0])
  }

  /** Joining the first characters of all pieces gives the heads of the
      non-empty pieces: empty pieces contribute nothing. */
  lemma {:induction false} JoinedFirstChars(ws: seq<string>)
    ensures Join(FirstChars(ws), "") == Heads(Filter(ws, NonEmpty()))
    decreases |ws|
  {
    if |ws| > 0 {
      JoinedFirstChars(ws[1..]);
      assert FirstChars(ws)[1..] == FirstChars(ws[1..]);
      assert Join(FirstChars(ws), "") == FirstChar(ws[0]) + Join(FirstChars(ws[1..]), "");
      var rest := Filter(ws[1..], NonEmpty());
      if ws[0] != "" {
        assert Filter(ws, NonEmpty()) == [ws[0]] + rest;
        assert Heads([ws[0]] + rest) == [ws[0][0]] + Heads(rest);
      }
    }
  }

  /** The initials are the upper-cased first letters of the first two
      words, and there are as many of them as there are words, up to two. */
  lemma InitialsOfWords(name: string)
    ensures var r, w := GetInitials(name), Words(name);
      && |r| == Min(2, |w|)
      && forall i :: 0 <= i < |r| ==> r[i] == UpperChar(w[i][0])
  {
    JoinedFirstChars(Split(name, ' '));
  }

  /** Two names with the same words have the same initials. */
  lemma SameWordsSameInitials(a: string, b: string)
    requires Words(a) == Words(b)
    ensures GetInitials(a) == GetInitials(b)
  {
    InitialsOfWords(a);
    InitialsOfWords(b);
  }

  /** A doubled space between two parts of a name leaves the initials alone. */
  lemma DoubledSpaceIgnored(a: string, b: string)
    ensures GetInitials(a + " " + " " + b) == GetInitials(a + " " + b)
  {
    var p := NonEmpty();
    SplitConcat(a, " " + b, ' ');
    SplitConcat("", b, ' ');
    SplitConcat(a, b, ' ');
    assert a + " " + " " + b == a + [' '] + (" " + b);
    assert " " + b == "" + [' '] + b;
    assert a + " " + b == a + [' '] + b;
    FilterConcat(Split(a, ' '), Split(" " + b, ' '), p);
    FilterConcat([""], Split(b, ' '), p);
    FilterConcat(Split(a, ' '), Split(b, ' '), p);
    SameWordsSameInitials(a + " " + " " + b, a + " " + b);
  }

  /** A leading space leaves the initials alone. */
  lemma LeadingSpaceIgnored(a: string)
    ensures GetInitials(" " + a) == GetInitials(a)
  {
    var p := NonEmpty();
    SplitConcat("", a, ' ');
    assert " " + a == "" + [' '] + a;
    FilterConcat([""], Split(a, ' '), p);
    SameWordsSameInitials(" " + a, a);
  }

  /** A trailing space leaves the initials alone. */
  lemma TrailingSpaceIgnored(a: string)
    ensures GetInitials(a + " ") == GetInitials(a)
  {
    var p := NonEmpty();
    SplitConcat(a, "", ' ');
    assert a + " " == a + [' '] + "";
    FilterConcat(Split(a, ' '), [""], p);
    assert Filter(Split(a, ' '), p) + [] == Filter(Split(a, ' '), p);
    SameWordsSameInitials(a + " ", a);
  }

  /** The empty name has no initials. */
  lemma InitialsOfEmptyName()
    ensures GetInitials("") == ""
  {
    InitialsOfWords("");
    assert Split("", ' ') == [""];
  }

  /** A first and a last name, each without spaces, give the upper-cased
      first letters of the two. */
  lemma TwoWordInitials(first: string, last: string)
    requires first != "" && last != "" && ' ' !in first && ' ' !in last
    ensures GetInitials(first + " " + last) == [UpperChar(first[0]), UpperChar(last[0])]
  {
    var name := first + [' '] + last;
    assert name == first + " " + last;
    SplitWithoutSeparator(first, ' ');
    SplitWithoutSeparator(last, ' ');
    SplitConcat(first, last, ' ');
    assert Split(name, ' ') == [first, last];
    assert [first, last][1..] == [last] && [last][1..] == [];
    assert Filter([last], NonEmpty()) == [last];
    assert Words(name) == [first, last];
    InitialsOfWords(name);
  }

  /** "Eleanor Rigby" has the initials "ER". */
  lemma InitialsOfEleanorRigby(name: string)
    requires name == "Eleanor Rigby"
    ensures GetInitials(name) == "ER"
  {
    var first, last := "Eleanor", "Rigby";
    assert name == first + " " + last;
    assert first[0] == 'E' && last[0] == 'R';
    TwoWordInitials(first, last);
  }
}
