/**
 * The text the agent writes, per loaded module, to report what it found:
 * "Loaded '<name>' module - <txt><suffix><actions list>", where txt is
 * "found no action" or "action" and the list is ": " followed by the action
 * names separated by ", ".
 */
module Summary {

  const Separator := ", "

  /** The names separated by ", ", first to last. */
  function Join(names: seq<string>): string
  {
    if |names| == 0 then ""
    else if |names| == 1 then names[0]
    else names[0] + Separator + Join(names[1..])
  }

  /** Appending one more name to a non-empty list adds the separator and the name. */
  lemma {:induction false} JoinSnoc(names: seq<string>, x: string)
    requires |names| > 0
    ensures Join(names + [x]) == Join(names) + Separator + x
  {
    if |names| > 1 {
      JoinSnoc(names[1..], x);
      assert (names + [x])[1..] == names[1..] + [x];
    } else {
      assert (names + [x])[1..] == [x];
    }
  }

  /** The first position of `c` in `s`. */
  function IndexOf(s: string, c: char): (i: nat)
    requires c in s
    ensures i < |s| && s[i] == c && c !in s[..i]
  {
    if s[0] == c then 0
    else
      assert s == [s[0]] + s[1..];
      var j := IndexOf(s[1..], c);
      assert s[..j + 1] == [s[0]] + s[1..][..j];
      j + 1
  }

  function DropSpace(s: string): (r: string)
    ensures |r| <= |s|
  {
    if |s| > 0 && s[0] == ' ' then s[1..] else s
  }

  /** Reads a ", "-separated list back into its names. */
  function Split(s: string): (r: seq<string>)
    ensures |r| > 0
    decreases |s|
  {
    if ',' !in s then [s]
    else
      var i := IndexOf(s, ',');
      [s[..i]] + Split(DropSpace(s[i + 1..]))
  }

  /** In a string `x + ", " + t` with no comma in `x`, the first comma ends `x`. */
  lemma FirstCommaEndsName(x: string, t: string)
    requires ',' !in x
    ensures ',' in x + Separator + t && IndexOf(x + Separator + t, ',') == |x|
  {
    var s := x + Separator + t;
    assert s[|x|] == ',';
    var i := IndexOf(s, ',');
    assert s[..|x|] == x;
  }

  /** Splitting peels one comma-free name off the front. */
  lemma SplitFront(x: string, t: string)
    requires ',' !in x
    ensures Split(x + Separator + t) == [x] + Split(t)
  {
    var s := x + Separator + t;
    FirstCommaEndsName(x, t);
    assert s[..|x|] == x;
    assert s[|x| + 1..] == " " + t;
  }

  /** Names without a comma are recovered from the joined list, in order. */
  lemma {:induction false} SplitJoin(names: seq<string>)
    requires |names| > 0
    requires forall k :: 0 <= k < |names| ==> ',' !in names[k]
    ensures Split(Join(names)) == names
  {
    if |names| > 1 {
      var rest := names[1..];
      forall k | 0 <= k < |rest|
        ensures ',' !in rest[k]
      {
        assert rest[k] == names[k + 1];
      }
      SplitJoin(rest);
      SplitFront(names[0], Join(rest));
      assert names == [names[0]] + rest;
    }
  }

  /** The word before the suffix: "found no action" for no action, otherwise "action". */
  function Verb(actions: seq<string>): string
  {
    if |actions| == 0 then "found no action" else "action"
  }

  /** Empty for no action, otherwise ": " and the joined names. */
  function ActionList(actions: seq<string>): string
  {
    if |actions| == 0 then "" else ": " + Join(actions)
  }

  /** The whole line reported for module `name`; `suffix` is the plural suffix for the action count. */
  function LoadedLine(name: string, actions: seq<string>, suffix: string): string
  {
    "Loaded '" + name + "' module - " + Verb(actions) + suffix + ActionList(actions)
  }

  /**
   * Builds the two variable parts of the line by walking the actions once:
   * the first action switches the word to "action" and opens the list with
   * ": ", each later one is preceded by ", ".
   */
  method DescribeActions(actions: seq<string>) returns (txt: string, list: string)
    ensures txt == Verb(actions) && list == ActionList(actions)
    ensures list == "" <==> |actions| == 0
    ensures |actions| > 0 ==> list[..2] == ": "
  {
    txt := "found no action";
    list := "";
    var i := 0;
    while i < |actions|
      invariant 0 <= i <= |actions|
      invariant txt == Verb(actions[..i])
      invariant list == ActionList(actions[..i])
      invariant list == "" <==> i == 0
    {
      if list == "" {
        txt := "action";
        list := list + ": ";
      } else {
        list := list + ", ";
      }
      list := list + actions[i];
      if i > 0 {
        JoinSnoc(actions[..i], actions[i]);
      }
      assert actions[..i + 1] == actions[..i] + [actions[i]];
      i := i + 1;
    }
    assert actions[..i] == actions;
  }
}
