/** `String.toLowerCase` and the lower-casing of sets of format names. */
module Text {

  /** Lower-cases one character; only the ASCII letters A-Z change. */
  function LowerChar(c: char): (r: char)
    ensures 'A' <= c <= 'Z' ==> r as int == c as int + 32
    ensures !('A' <= c <= 'Z') ==> r == c
    ensures !('A' <= r <= 'Z')
  {
    if 'A' <= c <= 'Z' then (c as int + 32) as char else c
  }

  /** `s.toLowerCase()`, character by character. */
  function Lower(s: string): (r: string)
    ensures |r| == |s|
    ensures forall i :: 0 <= i < |s| ==> r[i] == LowerChar(s[i])
  {
    if s == [] then [] else [LowerChar(s[0])] + Lower(s[1..])
  }

  /** No character of `s` is an upper-case letter. */
  predicate IsLowerCase(s: string) {
    forall i :: 0 <= i < |s| ==> !('A' <= s[i] <= 'Z')
  }

  /** `names.stream().map(String::toLowerCase).collect(toSet())`. */
  function LowerAll(names: set<string>): set<string> {
    set x | x in names :: Lower(x)
  }

  lemma LowerIsLowerCase(s: string)
    ensures IsLowerCase(Lower(s))
  {
  }

  /** A lower-case string is its own lower-case form. */
  lemma LowerOfLowerCase(s: string)
    requires IsLowerCase(s)
    ensures Lower(s) == s
  {
    assert forall i :: 0 <= i < |s| ==> Lower(s)[i] == s[i];
  }

  lemma LowerIdempotent(s: string)
    ensures Lower(Lower(s)) == Lower(s)
  {
    LowerIsLowerCase(s);
    LowerOfLowerCase(Lower(s));
  }

  /** Two strings that differ only in letter case have the same lower-case form. */
  lemma LowerCaseInsensitive(s: string, t: string)
    requires |s| == |t|
    requires forall i :: 0 <= i < |s| ==> LowerChar(s[i]) == LowerChar(t[i])
    ensures Lower(s) == Lower(t)
  {
  }

  /** The listing holds exactly the lower-case forms of the names. */
  lemma LowerAllMembers(names: set<string>, y: string)
    ensures y in LowerAll(names) <==> exists x :: x in names && Lower(x) == y
  {
  }

  /** Every listed name is lower-case, and so its own lower-case form. */
  lemma LowerAllIsLowerCase(names: set<string>)
    ensures forall y :: y in LowerAll(names) ==> IsLowerCase(y) && Lower(y) == y
  {
    forall y | y in LowerAll(names) ensures IsLowerCase(y) && Lower(y) == y {
      var x :| x in names && Lower(x) == y;
      LowerIsLowerCase(x);
      LowerIdempotent(x);
    }
  }

  /** No two listed names differ only by letter case. */
  lemma LowerAllNoCaseDuplicates(names: set<string>)
    ensures forall a, b :: a in LowerAll(names) && b in LowerAll(names) && Lower(a) == Lower(b) ==> a == b
  {
    LowerAllIsLowerCase(names);
  }

  /** Lower-casing a listing a second time changes nothing. */
  lemma LowerAllIdempotent(names: set<string>)
    ensures LowerAll(LowerAll(names)) == LowerAll(names)
  {
    LowerAllIsLowerCase(names);
  }

  /** The listing is empty exactly when the underlying set is. */
  lemma LowerAllEmpty(names: set<string>)
    ensures LowerAll(names) == {} <==> names == {}
  {
    if names != {} {
      var x :| x in names;
      assert Lower(x) in LowerAll(names);
    }
  }

  /** De-duplication can only shrink: the listing is never larger than the set it comes from. */
  lemma {:induction false} LowerAllSize(names: set<string>)
    ensures |LowerAll(names)| <= |names|
  {
    if names != {} {
      var x :| x in names;
      var rest := names - {x};
      LowerAllSize(rest);
      assert LowerAll(names) == LowerAll(rest) + {Lower(x)};
    }
  }

  /** The mixed-case listing {PNG, JPEG, Gif, png} becomes {png, jpeg, gif}. */
  lemma LowerAllExample()
    ensures LowerAll({"PNG", "JPEG", "Gif", "png"}) == {"png", "jpeg", "gif"}
  {
    assert Lower("PNG") == "png";
    assert Lower("JPEG") == "jpeg";
    assert Lower("Gif") == "gif";
    assert Lower("png") == "png";
  }
}
