// Cutting strings at their first separator.
module Strings {
  function IndexOf(s: string, c: char): (i: int)
    ensures -1 <= i < |s|
    ensures i >= 0 ==> s[i] == c && c !in s[..i]
    ensures i < 0 ==> c !in s
  {
    if s == "" then -1
    else if s[0] == c then 0
    else
      var i := IndexOf(s[1..], c);
      assert forall j :: 0 < j < |s| ==> s[j] == s[1..][j - 1];
      if i < 0 then -1 else assert s[..i + 1] == [s[0]] + s[1..][..i]; i + 1
  }

  lemma CutAtFirst(head: string, c: char, tail: string)
    requires c !in head
    ensures IndexOf(head + [c] + tail, c) == |head|
  {
    var s := head + [c] + tail;
    var i := IndexOf(s, c);
    assert s[|head|] == c;
    assert i >= 0 by { assert c in s; }
    assert forall j :: 0 <= j < |head| ==> s[j] == head[j] && s[j] in head;
    assert forall j :: 0 <= j < i ==> s[j] == s[..i][j] && s[..i][j] in s[..i];
  }
}
