/** String helpers: Ruby's `join(' ')`, splitting at spaces, and `File.basename`. */
module Text {

  /** Ruby's `Array#join(' ')`: the words with one space between neighbours. */
  function JoinSpace(words: seq<string>): string
    decreases |words|
  {
    if words == [] then ""
    else if |words| == 1 then words[0]
    else words[0] + " " + JoinSpace(words[1..])
  }

  /** Splits a string at every space; the pieces keep everything else, empty pieces included. */
  function SplitSpace(s: string): (r: seq<string>)
    ensures |r| >= 1
    ensures |r| == 1 <==> ' ' !in s
    decreases |s|
  {
    if s == [] then [""]
    else
      var rest := SplitSpace(s[1..]);
      if s[0] == ' ' then [""] + rest
      else [[s[0]] + rest[0]] + rest[1..]
  }

  predicate NoSpace(w: string) { ' ' !in w }

  /**
   * A word the shell hands on as one argument, unchanged: no blank, no quote,
   * and no character that expands, redirects or ends the command.
   */
  predicate ShellWord(w: string) {
    forall c :: c in w ==> c !in " \t\n'\"\\`$;&|<>()*?[]{}~#!"
  }

  /** A space-free word in front of some text becomes the head of the first piece. */
  lemma {:induction false} SplitSpaceWord(w: string, t: string)
    requires NoSpace(w)
    ensures SplitSpace(w + t) == [w + SplitSpace(t)[0]] + SplitSpace(t)[1..]
    decreases |w|
  {
    if w == [] {
      var r := SplitSpace(t);
      assert w + t == t && w + r[0] == r[0];
      assert [r[0]] + r[1..] == r;
    } else {
      assert (w + t)[1..] == w[1..] + t;
      SplitSpaceWord(w[1..], t);
      assert [w[0]] + (w[1..] + SplitSpace(t)[0]) == w + SplitSpace(t)[0];
    }
  }

  /** Splitting undoes joining, as long as no word carries a space of its own. */
  lemma {:induction false} SplitJoin(words: seq<string>)
    requires words != []
    requires forall i :: 0 <= i < |words| ==> NoSpace(words[i])
    ensures SplitSpace(JoinSpace(words)) == words
    decreases |words|
  {
    if |words| == 1 {
      SplitSpaceWord(words[0], "");
      assert words[0] + "" == words[0];
    } else {
      SplitJoin(words[1..]);
      var tail := JoinSpace(words[1..]);
      SplitSpaceWord(words[0], " " + tail);
      assert (" " + tail)[1..] == tail;
      assert words[0] + " " + tail == words[0] + (" " + tail);
      assert SplitSpace(" " + tail) == [""] + SplitSpace(tail);
      assert words[0] + "" == words[0];
    }
  }

  /** Ruby's `File.basename` for paths without a trailing slash: what follows the last '/'. */
  function Basename(p: string): (r: string)
    ensures '/' !in r && |r| <= |p|
    ensures '/' !in p ==> r == p
    decreases |p|
  {
    if p == [] then ""
    else if p[|p| - 1] == '/' then ""
    else Basename(p[..|p| - 1]) + [p[|p| - 1]]
  }
}
