/** The banner styles of the template example: the common skeleton prints a
    message through an interchangeable style function. */
module Template {
  import opened Text

  /** `m.capitalize()`: the first character upper case, all others lower case. */
  function Capitalize(m: string): (r: string)
    ensures |r| == |m|
    ensures |m| > 0 ==> r[0] == UpperChar(m[0])
    ensures forall i :: 1 <= i < |m| ==> r[i] == LowerChar(m[i])
  {
    if m == [] then [] else [UpperChar(m[0])] + Lower(m[1..])
  }

  /** `'.' * n`. */
  function Dots(n: nat): (r: string)
    ensures |r| == n
    ensures forall i :: 0 <= i < n ==> r[i] == '.'
  {
    if n == 0 then [] else Dots(n - 1) + ['.']
  }

  /** `dots_style(m)`: twenty characters longer than the message, ten dots,
      the capitalised message, and ten more dots. */
  function DotsStyle(m: string): (r: string)
    ensures |r| == |m| + 20
    ensures r[..10] == Dots(10) && r[|m| + 10..] == Dots(10)
    ensures r[10..|m| + 10] == Capitalize(m)
  {
    var d := Dots(10);
    var c := Capitalize(m);
    assert (d + c + d)[10..|m| + 10] == c;
    assert (d + c + d)[..10] == d;
    assert (d + c + d)[|m| + 10..] == d;
    d + c + d
  }

  /** The one-character strings of `s`, in order: iterating over a string. */
  function Chars(s: string): (r: seq<string>)
    ensures |r| == |s|
  {
    if s == [] then [] else [[s[0]]] + Chars(s[1..])
  }

  /** `'!'.join(s)`: the characters of `s` with a `!` between each two. */
  lemma {:induction false} JoinChars(s: string)
    ensures |Join(Chars(s), "!")| == if s == [] then 0 else 2 * |s| - 1
    ensures forall i :: 0 <= i < |Join(Chars(s), "!")| ==>
      Join(Chars(s), "!")[i] == if i % 2 == 0 then s[i / 2] else '!'
  {
    if |s| >= 2 {
      JoinChars(s[1..]);
      var rest := Join(Chars(s[1..]), "!");
      assert Chars(s)[1..] == Chars(s[1..]);
      var r := Join(Chars(s), "!");
      assert r == [s[0]] + "!" + rest;
      forall i | 0 <= i < |r| ensures r[i] == if i % 2 == 0 then s[i / 2] else '!' {
        if i >= 2 {
          assert r[i] == rest[i - 2];
          assert (i - 2) / 2 == i / 2 - 1 && (i - 2) % 2 == i % 2;
        }
      }
    }
  }

  /** `admire_style(m)`: the upper-cased message interleaved with `!`,
      `2 * |m| - 1` characters for a non-empty message and none for an empty
      one, each even position the upper case of the message's next character
      and each odd position a `!`. */
  function AdmireStyle(m: string): (r: string)
    ensures |r| == if m == [] then 0 else 2 * |m| - 1
    ensures forall i :: 0 <= i < |r| && i % 2 == 0 ==> r[i] == UpperChar(m[i / 2])
    ensures forall i :: 0 <= i < |r| && i % 2 == 1 ==> r[i] == '!'
  {
    JoinChars(Upper(m));
    Join(Chars(Upper(m)), "!")
  }
}
