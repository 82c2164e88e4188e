/** The content of the first message in a new ticket channel: one mention per
    staff role, joined by single spaces, so that every staff role is pinged.
    `Split` is the usual split on a one-character separator, used to state
    that the joined string comes apart into exactly those mentions again. */
module Mentions {
  import opened Platform

  /** The mention token of a role. */
  function Mention(role: Id): string {
    "<@&" + role + ">"
  }

  function MentionsOf(roles: seq<Id>): (ms: seq<string>)
    ensures |ms| == |roles|
    ensures forall i :: 0 <= i < |roles| ==> ms[i] == Mention(roles[i])
  {
    if roles == [] then [] else [Mention(roles[0])] + MentionsOf(roles[1..])
  }

  /** `parts.join(sep)`. */
  function Join(parts: seq<string>, sep: char): string {
    if parts == [] then ""
    else if |parts| == 1 then parts[0]
    else parts[0] + [sep] + Join(parts[1..], sep)
  }

  /** `s.split(sep)`: the pieces between occurrences of `sep`; never empty. */
  function Split(s: string, sep: char): (parts: seq<string>)
    ensures |parts| >= 1
  {
    if s == [] then [""]
    else
      var rest := Split(s[1..], sep);
      if s[0] == sep then [""] + rest else [[s[0]] + rest[0]] + rest[1..]
  }

  /** The staff-role mention line of a new ticket. */
  function RoleMentions(roles: seq<Id>): (line: string)
    ensures roles == [] <==> line == ""
  {
    var ms := MentionsOf(roles);
    assert roles != [] ==> |ms[0]| > 0 && (|ms| == 1 || |Join(ms, ' ')| >= |ms[0]|);
    Join(ms, ' ')
  }

  lemma {:induction false} SplitNoSeparator(t: string, sep: char)
    requires sep !in t
    ensures Split(t, sep) == [t]
  {
    if t != [] {
      SplitNoSeparator(t[1..], sep);
      assert [t[0]] + t[1..] == t;
    }
  }

  lemma {:induction false} SplitAtSeparator(t: string, u: string, sep: char)
    requires sep !in t
    ensures Split(t + [sep] + u, sep) == [t] + Split(u, sep)
  {
    var s := t + [sep] + u;
    if t == [] {
      assert s[1..] == u;
    } else {
      SplitAtSeparator(t[1..], u, sep);
      assert s[1..] == t[1..] + [sep] + u;
      assert [t[0]] + t[1..] == t;
    }
  }

  /** Splitting a join gives back the parts, provided none of them contains
      the separator. */
  lemma {:induction false} SplitJoin(parts: seq<string>, sep: char)
    requires |parts| >= 1
    requires forall i :: 0 <= i < |parts| ==> sep !in parts[i]
    ensures Split(Join(parts, sep), sep) == parts
  {
    if |parts| == 1 {
      SplitNoSeparator(parts[0], sep);
    } else {
      SplitJoin(parts[1..], sep);
      SplitAtSeparator(parts[0], Join(parts[1..], sep), sep);
    }
  }

  /** With at least one staff role and no spaces in role ids, the mention
      line consists of exactly one mention per staff role, in order. */
  lemma RoleMentionsRoundTrip(roles: seq<Id>)
    requires |roles| >= 1
    requires forall i :: 0 <= i < |roles| ==> ' ' !in roles[i]
    ensures Split(RoleMentions(roles), ' ') == MentionsOf(roles)
  {
    var ms := MentionsOf(roles);
    forall i | 0 <= i < |ms|
      ensures ' ' !in ms[i]
    {
      assert ms[i] == "<@&" + roles[i] + ">";
    }
    SplitJoin(ms, ' ');
  }
}
