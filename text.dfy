/** The one string operation the router's error handling relies on:
    whether a message contains a marker, as JavaScript's
    String.prototype.includes answers it. */
module Text {

  /** `marker` occurs in `s` starting at index `i`. */
  ghost predicate OccursAt(s: string, marker: string, i: int)
  {
    0 <= i <= |s| - |marker| && s[i..i + |marker|] == marker
  }

  /** `s.includes(marker)`: true exactly when `marker` occurs somewhere in `s`. */
  function Includes(s: string, marker: string): (b: bool)
    ensures b <==> exists i :: OccursAt(s, marker, i)
    decreases |s|
  {
    if |s| < |marker| then
      false
    else if s[..|marker|] == marker then
      assert OccursAt(s, marker, 0);
      true
    else
      var tail := s[1..];
      var rest := Includes(tail, marker);
      if rest then
        assert exists i :: OccursAt(s, marker, i) by {
          var j :| OccursAt(tail, marker, j);
          assert tail[j..j + |marker|] == s[j + 1..j + 1 + |marker|];
          assert OccursAt(s, marker, j + 1);
        }
        rest
      else
        assert forall i :: OccursAt(s, marker, i) ==> OccursAt(tail, marker, i - 1) by {
          forall i | OccursAt(s, marker, i)
            ensures OccursAt(tail, marker, i - 1)
          {
            assert tail[i - 1..i - 1 + |marker|] == s[i..i + |marker|];
          }
        }
        rest
  }
}
