/**
 * The two pieces of logic in the terminal client: reading the agents to invite
 * from a typed comma list, and what the live monitor shows of the messages that
 * arrived since its last refresh (speaker prefixes and bullet marks removed,
 * control messages skipped).
 */
module Cli {
  import opened Wrappers
  import opened PyStrings
  import opened PySeqs
  import opened Models
  import opened Lifecycle

  // ---------------------------------------------------------------- choosing agents

  /** The answers that invite every configured agent. */
  const SelectEveryone: set<string> := {"0", "all"}

  /** The ids of a typed answer: its comma-separated pieces, stripped, blank ones dropped. */
  function TypedIds(input: string): seq<string> {
    StrippedPieces(input, ',')
  }

  /** `[agent for agent in agents if agent.id in ids]` */
  function AgentsNamed(agents: seq<Agent>, ids: seq<string>): (r: seq<Agent>)
    ensures |r| <= |agents|
    ensures forall a :: a in r <==> a in agents && a.id in ids
    decreases |agents|
  {
    if agents == [] then []
    else
      var last := agents[|agents| - 1];
      var kept := AgentsNamed(agents[..|agents| - 1], ids);
      if last.id in ids then kept + [last] else kept
  }

  /** The invited agents keep the registry's order. */
  lemma {:induction false} AgentsNamedIsSubsequence(agents: seq<Agent>, ids: seq<string>)
    ensures Subsequence(AgentsNamed(agents, ids), agents)
    decreases |agents|
  {
    if agents != [] {
      var init := agents[..|agents| - 1];
      var last := agents[|agents| - 1];
      var kept := AgentsNamed(init, ids);
      AgentsNamedIsSubsequence(init, ids);
      if last.id in ids {
        assert (kept + [last])[..|kept|] == kept;
      } else if kept != [] {
        assert kept[|kept| - 1].id in ids;
      }
    }
  }

  /**
   * Each registry entry is invited once however often its id is typed: the
   * selection holds an agent exactly as often as the registry does, or not at all.
   */
  lemma {:induction false} AgentsNamedCounts(agents: seq<Agent>, ids: seq<string>, a: Agent)
    ensures multiset(AgentsNamed(agents, ids))[a] == if a.id in ids then multiset(agents)[a] else 0
    decreases |agents|
  {
    if agents != [] {
      var init := agents[..|agents| - 1];
      var last := agents[|agents| - 1];
      assert agents == init + [last];
      AgentsNamedCounts(init, ids, a);
    }
  }

  /** Only which ids are typed matters, not their order or repetitions. */
  lemma {:induction false} AgentsNamedBySet(agents: seq<Agent>, ids: seq<string>, ids': seq<string>)
    requires forall x :: x in ids <==> x in ids'
    ensures AgentsNamed(agents, ids) == AgentsNamed(agents, ids')
    decreases |agents|
  {
    if agents != [] {
      AgentsNamedBySet(agents[..|agents| - 1], ids, ids');
    }
  }

  /**
   * One answer to the selection prompt: every agent for "0" or "all", the named
   * agents when every typed id is known, and None when the prompt must repeat.
   */
  function SelectOnce(agents: seq<Agent>, input: string): Option<seq<Agent>> {
    if Strip(input) in SelectEveryone then Some(agents)
    else
      var ids := TypedIds(input);
      if RosterKnown(agents, ids) then Some(AgentsNamed(agents, ids)) else None
  }

  /** An answer is accepted iff it asks for everyone or names only known agents. */
  lemma SelectOnceAccepts(agents: seq<Agent>, input: string)
    ensures SelectOnce(agents, input).Some? <==> Strip(input) in SelectEveryone || RosterKnown(agents, TypedIds(input))
    ensures Strip(input) in SelectEveryone ==> SelectOnce(agents, input) == Some(agents)
  {
  }

  /** An accepted selection is part of the registry, and every selected agent's id is known. */
  lemma SelectionIsKnown(agents: seq<Agent>, input: string)
    requires SelectOnce(agents, input).Some?
    ensures forall a :: a in SelectOnce(agents, input).value ==> a in agents
    ensures RosterKnown(agents, AgentIds(SelectOnce(agents, input).value))
  {
    var chosen := SelectOnce(agents, input).value;
    var ids := AgentIds(chosen);
    forall i | 0 <= i < |ids|
      ensures Known(agents, ids[i])
    {
      assert chosen[i] in agents;
      var j :| 0 <= j < |agents| && agents[j] == chosen[i];
      assert agents[j].id == ids[i];
    }
  }

  /** An answer of nothing but commas and blanks selects nobody: accepted, but empty. */
  lemma BlankSelection(agents: seq<Agent>, input: string)
    requires forall i :: 0 <= i < |input| ==> input[i] in Whitespace || input[i] == ','
    requires Strip(input) !in SelectEveryone
    ensures SelectOnce(agents, input) == Some([])
  {
    BlankStrippedPieces(input, ',');
    assert AgentsNamed(agents, []) == [] by {
      if AgentsNamed(agents, []) != [] {
        assert AgentsNamed(agents, [])[0] in AgentsNamed(agents, []);
      }
    }
  }

  /**
   * The prompt loop of `_select_agents` over the answers the user gives, in
   * order: the first accepted answer's selection and its position, or None
   * when the answers run out first.
   */
  method SelectAgents(agents: seq<Agent>, answers: seq<string>) returns (selected: Option<seq<Agent>>, used: nat)
    ensures selected.Some? ==> used < |answers| && selected == SelectOnce(agents, answers[used])
    ensures selected.Some? ==> forall j :: 0 <= j < used ==> SelectOnce(agents, answers[j]).None?
    ensures selected.None? ==> used == |answers| && forall j :: 0 <= j < |answers| ==> SelectOnce(agents, answers[j]).None?
  {
    used := 0;
    while used < |answers|
      invariant 0 <= used <= |answers|
      invariant forall j :: 0 <= j < used ==> SelectOnce(agents, answers[j]).None?
    {
      var input := answers[used];
      if Strip(input) in SelectEveryone {
        return Some(agents), used;
      }
      var agentIds := TypedIds(input);
      if RosterKnown(agents, agentIds) {
        return Some(AgentsNamed(agents, agentIds)), used;
      }
      used := used + 1;
    }
    return None, used;
  }

  /**
   * `_create_conversation` up to the request: an empty topic or an empty
   * selection ends it with no request.
   */
  function CreationRequest(topic: string, chosen: seq<Agent>, maxTurns: int): (r: Option<ConversationRequest>)
    ensures r.Some? <==> topic != "" && chosen != []
    ensures r.Some? ==> r.value.topic == topic && r.value.maxTurns == maxTurns && r.value.title == None
    ensures r.Some? ==> r.value.agentIds == AgentIds(chosen)
  {
    if topic == "" || chosen == [] then None
    else Some(ConversationRequest(topic, AgentIds(chosen), maxTurns, None))
  }

  /**
   * A request built from an accepted selection names only known agents, and at
   * least one: the service's own checks on the roster pass.
   */
  lemma SelectionRequestIsValid(agents: seq<Agent>, input: string, topic: string, maxTurns: int)
    requires SelectOnce(agents, input).Some?
    requires CreationRequest(topic, SelectOnce(agents, input).value, maxTurns).Some?
    ensures var req := CreationRequest(topic, SelectOnce(agents, input).value, maxTurns).value;
      req.agentIds != [] && RosterKnown(agents, req.agentIds)
  {
    SelectionIsKnown(agents, input);
  }

  /** A blank answer never reaches the service. */
  lemma BlankSelectionMakesNoRequest(agents: seq<Agent>, input: string, topic: string, maxTurns: int)
    requires forall i :: 0 <= i < |input| ==> input[i] in Whitespace || input[i] == ','
    requires Strip(input) !in SelectEveryone
    ensures var chosen := SelectOnce(agents, input);
      chosen.Some? && CreationRequest(topic, chosen.value, maxTurns) == None
  {
    BlankSelection(agents, input);
  }

  // ---------------------------------------------------------------- the speaker prefix

  /** The `k`-th decoration of a speaker's name that may open a message. */
  function Pattern(name: string, k: nat): string
    requires k < 20
  {
    match k
    case 0 => "[" + name + "]"
    case 1 => "[" + name + "] "
    case 2 => "[" + name + "]:"
    case 3 => "[" + name + "]: "
    case 4 => name + ":"
    case 5 => name + ": "
    case 6 => name
    case 7 => name + " "
    case 8 => "[" + name + "님]"
    case 9 => "[" + name + "님] "
    case 10 => "[" + name + "님]:"
    case 11 => "[" + name + "님]: "
    case 12 => name + "님:"
    case 13 => name + "님: "
    case 14 => name + "님"
    case 15 => name + "님 "
    case 16 => "님"
    case 17 => "님 "
    case 18 => "님:"
    case _ => "님: "
  }

  /** The decorations in the order they are tried. */
  function Patterns(name: string): (ps: seq<string>)
    ensures |ps| == 20
    ensures forall k :: 0 <= k < 20 ==> ps[k] == Pattern(name, k)
  {
    seq(20, k requires 0 <= k < 20 => Pattern(name, k))
  }

  /** The first pattern, in list order, that opens the content. */
  function FirstMatch(content: string, ps: seq<string>): (m: Option<string>)
    ensures m.Some? ==> StartsWith(content, m.value)
    decreases |ps|
  {
    if ps == [] then None
    else if StartsWith(content, ps[0]) then Some(ps[0])
    else FirstMatch(content, ps[1..])
  }

  /** No pattern matches, or the one found is listed at `j` and none before it matches. */
  lemma {:induction false} FirstMatchIsFirst(content: string, ps: seq<string>) returns (j: nat)
    ensures var m := FirstMatch(content, ps);
      && (m.None? <==> forall k :: 0 <= k < |ps| ==> !StartsWith(content, ps[k]))
      && (m.Some? ==> j < |ps| && ps[j] == m.value && forall k :: 0 <= k < j ==> !StartsWith(content, ps[k]))
    decreases |ps|
  {
    j := 0;
    if ps != [] && !StartsWith(content, ps[0]) {
      var i := FirstMatchIsFirst(content, ps[1..]);
      assert forall k :: 1 <= k < |ps| ==> ps[k] == ps[1..][k - 1];
      j := i + 1;
    }
  }

  /** The first pattern that opens the content is the one found. */
  lemma {:induction false} FirstMatchAt(content: string, ps: seq<string>, j: nat)
    requires j < |ps| && StartsWith(content, ps[j])
    requires forall k :: 0 <= k < j ==> !StartsWith(content, ps[k])
    ensures FirstMatch(content, ps) == Some(ps[j])
    decreases j
  {
    if j > 0 {
      assert !StartsWith(content, ps[0]);
      assert forall k :: 0 <= k < j - 1 ==> ps[1..][k] == ps[k + 1];
      FirstMatchAt(content, ps[1..], j - 1);
    }
  }

  /** When no pattern opens the content, none is found. */
  lemma {:induction false} FirstMatchNone(content: string, ps: seq<string>)
    requires forall k :: 0 <= k < |ps| ==> !StartsWith(content, ps[k])
    ensures FirstMatch(content, ps) == None
    decreases |ps|
  {
    if ps != [] {
      assert forall k :: 0 <= k < |ps| - 1 ==> ps[1..][k] == ps[k + 1];
      FirstMatchNone(content, ps[1..]);
    }
  }

  /** A matching pattern no shorter than any other matching one, the earliest among equals. */
  function LongestMatch(content: string, ps: seq<string>): (m: Option<string>)
    ensures m.Some? ==> StartsWith(content, m.value)
    decreases |ps|
  {
    if ps == [] then None
    else
      var best := LongestMatch(content, ps[..|ps| - 1]);
      var last := ps[|ps| - 1];
      if StartsWith(content, last) && (best.None? || |best.value| < |last|) then Some(last)
      else best
  }

  /** No pattern matches, or the one found is listed at `j` and is at least as long as every matching one. */
  lemma {:induction false} LongestMatchIsLongest(content: string, ps: seq<string>) returns (j: nat)
    ensures var m := LongestMatch(content, ps);
      && (m.None? <==> forall k :: 0 <= k < |ps| ==> !StartsWith(content, ps[k]))
      && (m.Some? ==> j < |ps| && ps[j] == m.value)
      && (m.Some? ==> forall k :: 0 <= k < |ps| && StartsWith(content, ps[k]) ==> |ps[k]| <= |m.value|)
    decreases |ps|
  {
    j := 0;
    if ps != [] {
      var init := ps[..|ps| - 1];
      var i := LongestMatchIsLongest(content, init);
      assert forall k :: 0 <= k < |init| ==> init[k] == ps[k];
      j := if LongestMatch(content, ps) == LongestMatch(content, init) then i else |ps| - 1;
    }
  }

  /** The content with the chosen pattern cut off and the rest stripped; unchanged when none matched. */
  function CutPrefix(content: string, m: Option<string>): string
    requires m.Some? ==> StartsWith(content, m.value)
  {
    if m.None? then content else Strip(content[|m.value|..])
  }

  /**
   * The prefix removal of `monitor_conversation` as written, over the list of
   * patterns: at most one pattern is removed, the first in list order that
   * opens the content.
   */
  method RemoveSpeakerPrefixAsWritten(content: string, patternsToRemove: seq<string>) returns (r: string)
    ensures r == CutPrefix(content, FirstMatch(content, patternsToRemove))
  {
    r := content;
    for j := 0 to |patternsToRemove|
      invariant forall k :: 0 <= k < j ==> !StartsWith(content, patternsToRemove[k])
    {
      var pattern := patternsToRemove[j];
      if StartsWith(content, pattern) {
        FirstMatchAt(content, patternsToRemove, j);
        return Strip(content[|pattern|..]);
      }
    }
    FirstMatchNone(content, patternsToRemove);
  }

  /**
   * The evidently intended removal: the longest pattern that opens the content,
   * so that a longer decoration is not shadowed by a shorter one listed first.
   */
  method RemoveSpeakerPrefix(content: string, patternsToRemove: seq<string>) returns (r: string)
    ensures r == CutPrefix(content, LongestMatch(content, patternsToRemove))
  {
    var best: Option<string> := None;
    for j := 0 to |patternsToRemove|
      invariant best == LongestMatch(content, patternsToRemove[..j])
    {
      assert patternsToRemove[..j + 1][..j] == patternsToRemove[..j];
      var pattern := patternsToRemove[j];
      if StartsWith(content, pattern) && (best.None? || |best.value| < |pattern|) {
        best := Some(pattern);
      }
    }
    assert patternsToRemove[..|patternsToRemove|] == patternsToRemove;
    r := CutPrefix(content, best);
  }

  /** At most one pattern goes: what is left is the content, or the stripped rest after one pattern. */
  lemma CutPrefixSlice(content: string, m: Option<string>) returns (a: nat, b: nat)
    requires m.Some? ==> StartsWith(content, m.value)
    ensures a <= b <= |content| && CutPrefix(content, m) == content[a..b]
  {
    if m.None? {
      a, b := 0, |content|;
    } else {
      var n := |m.value|;
      var rest := content[n..];
      var k := StripStart(rest, Whitespace, 0);
      var e := StripEnd(rest, Whitespace, k, |rest|);
      assert Strip(rest) == rest[k..e];
      assert rest[k..e] == content[n + k..n + e];
      a, b := n + k, n + e;
    }
  }

  /** A pattern longer than the name with "님: " after it is one of the bracketed ones. */
  lemma LongPatternsAreBracketed(name: string, k: nat)
    requires k < 20 && |Pattern(name, k)| > |name| + 3
    ensures Pattern(name, k)[0] == '['
  {
  }

  /** A text that differs from a pattern at some position of both does not open with it. */
  lemma DiffersAt(s: string, p: string, i: nat)
    requires i < |p| && i < |s| && s[i] != p[i]
    ensures !StartsWith(s, p)
  {
    if |p| <= |s| {
      assert s[..|p|][i] == s[i];
    }
  }

  /** Text that opens with none of `:`, `-`, `*` or a space is left as it is. */
  lemma TidyKeeps(s: string)
    requires s != [] && s[0] !in {':', '-', '*', ' '}
    ensures Tidy(s) == s
  {
    assert StripStart(s, {':', ' '}, 0) == 0;
    assert StripStart(s, {'-', ' '}, 0) == 0;
    assert StripStart(s, {'*', ' '}, 0) == 0;
  }

  /**
   * The plain name, listed before the `님` forms, shadows them: a message that
   * opens with the name and `님` has only the name removed, and the text shown
   * still opens with `님`.
   */
  lemma NameShadowsHonorific(name: string, rest: string)
    requires name != [] && name[0] != '['
    ensures FirstMatch(name + "님" + rest, Patterns(name)) == Some(name)
    ensures StartsWith(Shown(name + "님" + rest, name), "님")
  {
    var c := name + "님" + rest;
    var ps := Patterns(name);
    NameOpensFirst(name, rest);
    assert |ps[6]| == |name|;
    var s := "님" + rest;
    assert c[|name|..] == s;
    HonorificSurvives(s);
  }

  /** The bare name is the first pattern to open the name followed by `님`. */
  lemma NameOpensFirst(name: string, rest: string)
    requires name != [] && name[0] != '['
    ensures FirstMatch(name + "님" + rest, Patterns(name)) == Some(name)
  {
    var c := name + "님" + rest;
    var ps := Patterns(name);
    assert c[..|name|] == name && c[|name|] == '님' && c[0] == name[0];
    assert StartsWith(c, ps[6]);
    forall k | 0 <= k < 6
      ensures !StartsWith(c, ps[k])
    {
      if k < 4 {
        DiffersAt(c, ps[k], 0);
      } else {
        DiffersAt(c, ps[k], |name|);
      }
    }
    FirstMatchAt(c, ps, 6);
  }

  /** Text opening with `님` still opens with it after stripping and tidying. */
  lemma HonorificSurvives(s: string)
    requires s != [] && s[0] == '님'
    ensures StartsWith(Tidy(Strip(s)), "님")
  {
    assert StripStart(s, Whitespace, 0) == 0;
    var e := StripEnd(s, Whitespace, 0, |s|);
    StripEndSkips(s, Whitespace, 0, |s|);
    assert e >= 1;
    var t := Strip(s);
    assert t == s[..e] && t[0] == '님';
    TidyKeeps(t);
    assert t[..1] == "님";
  }

  /**
   * The longest pattern removes the whole decoration: a message that opens with
   * the name and "님: " shows only the tidied rest.
   */
  lemma LongestRemovesHonorific(name: string, rest: string)
    requires name != [] && name[0] != '['
    ensures ShownIntended(name + "님: " + rest, name) == Tidy(Strip(rest))
  {
    var c := name + "님: " + rest;
    var ps := Patterns(name);
    var m := LongestMatch(c, ps);
    var j := LongestMatchIsLongest(c, ps);
    assert c[..|name| + 3] == ps[13];
    assert StartsWith(c, ps[13]);
    var n := |m.value|;
    assert m.value == ps[j];
    forall k | 0 <= k < 20 && |ps[k]| > |name| + 3
      ensures !StartsWith(c, ps[k])
    {
      LongPatternsAreBracketed(name, k);
      DiffersAt(c, ps[k], 0);
    }
    assert n == |name| + 3;
    assert c[n..] == rest;
  }

  // ---------------------------------------------------------------- what the monitor shows

  /** `content.lstrip(": ").lstrip("- ").lstrip("* ")` */
  function Tidy(content: string): string {
    LStrip(LStrip(LStrip(content, {':', ' '}), {'-', ' '}), {'*', ' '})
  }

  /** Tidying only drops leading characters, and the text no longer opens with '*' or a space. */
  lemma TidyShape(content: string) returns (a: nat)
    ensures a <= |content| && Tidy(content) == content[a..]
    ensures Tidy(content) != [] ==> Tidy(content)[0] != '*' && Tidy(content)[0] != ' '
  {
    var s1 := LStrip(content, {':', ' '});
    var a1 := StripStart(content, {':', ' '}, 0);
    var s2 := LStrip(s1, {'-', ' '});
    var a2 := StripStart(s1, {'-', ' '}, 0);
    var a3 := StripStart(s2, {'*', ' '}, 0);
    assert s2 == content[a1 + a2..];
    a := a1 + a2 + a3;
    assert Tidy(content) == content[a..];
  }

  /** The text printed for one message of a speaker: the first matching pattern cut off, then tidied. */
  function Shown(content: string, speaker: string): string {
    Tidy(CutPrefix(content, FirstMatch(content, Patterns(speaker))))
  }

  /** The text the evidently intended removal would print: the longest matching pattern cut off, then tidied. */
  function ShownIntended(content: string, speaker: string): string {
    Tidy(CutPrefix(content, LongestMatch(content, Patterns(speaker))))
  }

  /** The printed text is a contiguous part of the message content. */
  lemma ShownIsSlice(content: string, speaker: string)
    ensures exists a, b :: 0 <= a <= b <= |content| && Shown(content, speaker) == content[a..b]
  {
    var ps := Patterns(speaker);
    TidyCutSlice(content, FirstMatch(content, ps));
  }

  /** Cutting a pattern off and tidying keeps a contiguous part of the content. */
  lemma TidyCutSlice(content: string, m: Option<string>)
    requires m.Some? ==> StartsWith(content, m.value)
    ensures exists a, b :: 0 <= a <= b <= |content| && Tidy(CutPrefix(content, m)) == content[a..b]
  {
    var cut := CutPrefix(content, m);
    var a, b := CutPrefixSlice(content, m);
    var c := TidyShape(cut);
    assert cut[c..] == content[a + c..b];
  }

  /** One printed line: who spoke, and the tidied text. */
  datatype Line = Line(speaker: string, text: string)

  /** The line printed for one message. */
  function LineOf(m: Message): Line {
    Line(m.speaker, Shown(m.content, m.speaker))
  }

  /** The messages of a run that the monitor prints: control messages are skipped. */
  function Kept(messages: seq<Message>): (r: seq<Message>)
    ensures |r| <= |messages|
    decreases |messages|
  {
    if messages == [] then []
    else
      var m := messages[|messages| - 1];
      var before := Kept(messages[..|messages| - 1]);
      if m.speaker != SystemSpeaker then before + [m] else before
  }

  /** Keeping two runs one after the other keeps their concatenation. */
  lemma {:induction false} KeptAppend(xs: seq<Message>, ys: seq<Message>)
    ensures Kept(xs + ys) == Kept(xs) + Kept(ys)
    decreases |ys|
  {
    if ys != [] {
      var init := ys[..|ys| - 1];
      assert (xs + ys)[..|xs + ys| - 1] == xs + init;
      assert (xs + ys)[|xs + ys| - 1] == ys[|ys| - 1];
      KeptAppend(xs, init);
    } else {
      assert xs + ys == xs;
    }
  }

  /** Exactly the non-system messages of a run are kept, in order. */
  lemma {:induction false} KeptSpeakers(messages: seq<Message>)
    ensures forall m :: m in Kept(messages) <==> m in messages && m.speaker != SystemSpeaker
    ensures |Kept(messages)| == |messages| - CountSystem(messages)
    decreases |messages|
  {
    if messages != [] {
      var init := messages[..|messages| - 1];
      KeptSpeakers(init);
      assert messages == init + [messages[|messages| - 1]];
    }
  }

  /** The lines printed for a run of messages: one per kept message, in order. */
  function Printed(messages: seq<Message>): (r: seq<Line>)
    ensures |r| == |Kept(messages)|
  {
    var kept := Kept(messages);
    seq(|kept|, k requires 0 <= k < |kept| => LineOf(kept[k]))
  }

  /** Printing two runs one after the other prints their concatenation. */
  lemma PrintedAppend(xs: seq<Message>, ys: seq<Message>)
    ensures Printed(xs + ys) == Printed(xs) + Printed(ys)
  {
    KeptAppend(xs, ys);
    var kx, ky := Kept(xs), Kept(ys);
    var whole, px, py := Printed(xs + ys), Printed(xs), Printed(ys);
    forall k | 0 <= k < |whole|
      ensures whole[k] == (px + py)[k]
    {
      if k < |kx| {
        assert whole[k] == LineOf(kx[k]) == px[k];
      } else {
        assert whole[k] == LineOf(ky[k - |kx|]) == py[k - |kx|];
      }
    }
  }

  /** Every printed line is from a non-system speaker, and every non-system message gets a line. */
  lemma PrintedSpeakers(messages: seq<Message>)
    ensures forall l :: l in Printed(messages) ==> l.speaker != SystemSpeaker
    ensures |Printed(messages)| == |messages| - CountSystem(messages)
  {
    KeptSpeakers(messages);
    var kept := Kept(messages);
    forall l | l in Printed(messages)
      ensures l.speaker != SystemSpeaker
    {
      var k :| 0 <= k < |kept| && Printed(messages)[k] == l;
      assert kept[k] in kept;
    }
  }

  /** How many control messages a run holds. */
  function CountSystem(messages: seq<Message>): nat
    decreases |messages|
  {
    if messages == [] then 0
    else CountSystem(messages[..|messages| - 1]) + if messages[|messages| - 1].speaker == SystemSpeaker then 1 else 0
  }

  /** The lines of the messages that arrived since the last refresh, and the new count. */
  function Refreshed(messages: seq<Message>, last: nat): (seq<Line>, nat) {
    if |messages| > last then (Printed(messages[last..]), |messages|) else ([], last)
  }

  /** The line printed for one message: its speaker, and its content without the speaker prefix, tidied. */
  method ShowMessage(message: Message) returns (line: Line)
    ensures line == LineOf(message)
  {
    var agentName := message.speaker;
    var content := RemoveSpeakerPrefixAsWritten(message.content, Patterns(agentName));
    content := Tidy(content);
    line := Line(agentName, content);
  }

  /**
   * One refresh of `monitor_conversation`: the messages from the last count on
   * are printed (control messages skipped) and the count moves to the new length;
   * when nothing was added nothing is printed.
   */
  method Refresh(messages: seq<Message>, last: nat) returns (shown: seq<Line>, next: nat)
    ensures shown == Refreshed(messages, last).0 && next == Refreshed(messages, last).1
  {
    shown := [];
    next := last;
    var currentMessageCount := |messages|;
    if currentMessageCount > last {
      for i := last to currentMessageCount
        invariant shown == Printed(messages[last..i])
      {
        shown := PrintNext(messages, last, i, shown);
      }
      assert messages[last..currentMessageCount] == messages[last..];
      next := currentMessageCount;
    }
  }

  /** The body of the refresh loop: message `i` adds its line to those printed so far, unless it is a control message. */
  method PrintNext(messages: seq<Message>, last: nat, i: nat, shown: seq<Line>) returns (shown': seq<Line>)
    requires last <= i < |messages| && shown == Printed(messages[last..i])
    ensures shown' == Printed(messages[last..i + 1])
  {
    PrintedStep(messages, last, i);
    shown' := shown;
    var message := messages[i];
    if message.speaker != SystemSpeaker {
      var line := ShowMessage(message);
      shown' := shown + [line];
    }
  }

  /** Printing one more message of the run adds its line, unless it is a control message. */
  lemma PrintedStep(messages: seq<Message>, last: nat, i: nat)
    requires last <= i < |messages|
    ensures var m := messages[i];
      Printed(messages[last..i + 1]) ==
        Printed(messages[last..i]) + if m.speaker != SystemSpeaker then [LineOf(m)] else []
  {
    var m := messages[i];
    assert messages[last..i + 1] == messages[last..i] + [m];
    PrintedAppend(messages[last..i], [m]);
    assert [m][..0] == [];
    if m.speaker != SystemSpeaker {
      assert Printed([m])[0] == LineOf(m);
    }
  }

  /**
   * Across refreshes over a growing log, each message after the starting count
   * is printed exactly once: two refreshes print what one over the later log would.
   */
  lemma RefreshesPrintOnce(log: seq<Message>, more: seq<Message>, start: nat)
    requires start <= |log|
    ensures var (first, mid) := Refreshed(log, start);
      var (second, end) := Refreshed(log + more, mid);
      var (whole, end') := Refreshed(log + more, start);
      first + second == whole && end == end'
  {
    var grown := log + more;
    assert grown[start..] == log[start..] + more;
    PrintedAppend(log[start..], more);
    if |log| > start {
      assert grown[|log|..] == more;
    } else {
      assert log[start..] == [];
    }
  }
}
