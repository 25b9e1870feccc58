/** How the serverless functions pull the JSON out of an AI reply:

      reply.match(/```json\s*([\s\S]*?)\s*```/) || reply.match(/```\s*([\s\S]*?)\s*```/) || [null, reply]

    followed by `match[1] || reply`. FindFence is the regular-expression search: the
    leftmost opening, the greedy `\s*` after it, and the lazy capture up to the first
    place where optional whitespace and a closing fence follow. */
module Fences {
  import opened Wrappers
  import opened Text

  const JsonFence: string := "```json"
  const BareFence: string := "```"

  /** The end of the run of whitespace starting at `i`: where a greedy `\s*` stops. */
  function SkipWs(s: string, i: nat): (j: nat)
    requires i <= |s|
    ensures i <= j <= |s|
    ensures j == |s| || !IsWhitespace(s[j])
    decreases |s| - i
  {
    if i < |s| && IsWhitespace(s[i]) then SkipWs(s, i + 1) else i
  }

  /** Three backticks start at position `j`. */
  predicate FenceAt(s: string, j: nat) {
    j + 3 <= |s| && s[j] == '`' && s[j + 1] == '`' && s[j + 2] == '`'
  }

  lemma BareFenceAt(s: string, j: nat)
    ensures OccursAt(s, BareFence, j) <==> FenceAt(s, j)
  {
    if FenceAt(s, j) {
      assert s[j..j + 3] == BareFence;
    }
  }

  /** Whitespace and then a closing fence follow position `e`. */
  predicate ClosesAt(s: string, e: nat)
    requires e <= |s|
  {
    FenceAt(s, SkipWs(s, e))
  }

  /** The first position at or after `from` where `pat` occurs. */
  function IndexOf(s: string, pat: string, from: nat): (r: Option<nat>)
    requires from <= |s|
    ensures r.Some? ==> from <= r.value <= |s| && OccursAt(s, pat, r.value)
    decreases |s| - from
  {
    if OccursAt(s, pat, from) then Some(from)
    else if from == |s| then None
    else IndexOf(s, pat, from + 1)
  }

  /** The first capture end at or after `from`: the lazy `([\s\S]*?)`. */
  function FirstClose(s: string, from: nat): (r: Option<nat>)
    requires from <= |s|
    ensures r.Some? ==> from <= r.value <= |s| && ClosesAt(s, r.value)
    decreases |s| - from
  {
    if ClosesAt(s, from) then Some(from)
    else if from == |s| then None
    else FirstClose(s, from + 1)
  }

  /** A match of the regular expression: the opening at `start`, whitespace up to
      `begin`, the capture `s[begin..end]`, then whitespace and the closing fence. */
  datatype Fence = Fence(start: nat, begin: nat, end: nat)

  predicate IsMatch(s: string, opener: string, m: Fence) {
    && m.start + |opener| <= m.begin <= m.end <= |s|
    && OccursAt(s, opener, m.start)
    && AllWhitespace(s[m.start + |opener|..m.begin])
    && ClosesAt(s, m.end)
  }

  /** `s.match(/<opener>\s*([\s\S]*?)\s*```/)`. */
  function FindFence(s: string, opener: string): (r: Option<Fence>)
    ensures r.Some? ==> r.value.begin <= r.value.end <= |s|
  {
    var at := IndexOf(s, opener, 0);
    if at.None? || at.value + |opener| > |s| then None
    else
      var b := SkipWs(s, at.value + |opener|);
      var close := FirstClose(s, b);
      if close.None? then None else Some(Fence(at.value, b, close.value))
  }

  /** The captured group of a match. */
  function Capture(s: string, m: Fence): string
    requires m.begin <= m.end <= |s|
  {
    s[m.begin..m.end]
  }

  /** `match[1] || reply`: the capture, unless it is empty. */
  function CaptureOr(s: string, m: Fence): string
    requires m.begin <= m.end <= |s|
  {
    if m.begin < m.end then Capture(s, m) else s
  }

  /** The text handed to `JSON.parse`: the capture of the first `json` fence, else of
      the first bare fence, else the whole reply; an empty capture is falsy and also
      gives the whole reply. */
  function ExtractJson(reply: string): string {
    match FindFence(reply, JsonFence)
    case Some(m) => CaptureOr(reply, m)
    case None =>
      match FindFence(reply, BareFence)
      case Some(m) => CaptureOr(reply, m)
      case None => reply
  }

  /** IndexOf finds the first occurrence, and None means no occurrence at all. */
  lemma {:induction false} IndexOfSpec(s: string, pat: string, from: nat)
    requires from <= |s|
    ensures IndexOf(s, pat, from).Some? ==>
      forall i :: from <= i < IndexOf(s, pat, from).value ==> !OccursAt(s, pat, i)
    ensures IndexOf(s, pat, from).None? ==> forall i :: from <= i <= |s| ==> !OccursAt(s, pat, i)
    decreases |s| - from
  {
    if !OccursAt(s, pat, from) && from < |s| {
      IndexOfSpec(s, pat, from + 1);
    }
  }

  /** FirstClose finds the first closing position, and None means there is none. */
  lemma {:induction false} FirstCloseSpec(s: string, from: nat)
    requires from <= |s|
    ensures FirstClose(s, from).Some? ==>
      forall e :: from <= e < FirstClose(s, from).value ==> !ClosesAt(s, e)
    ensures FirstClose(s, from).None? ==> forall e :: from <= e <= |s| ==> !ClosesAt(s, e)
    decreases |s| - from
  {
    if !ClosesAt(s, from) && from < |s| {
      FirstCloseSpec(s, from + 1);
    }
  }

  /** The whitespace run that SkipWs passes over. */
  lemma {:induction false} SkipWsRun(s: string, i: nat)
    requires i <= |s|
    ensures AllWhitespace(s[i..SkipWs(s, i)])
    decreases |s| - i
  {
    if i < |s| && IsWhitespace(s[i]) {
      SkipWsRun(s, i + 1);
      assert s[i..SkipWs(s, i)] == [s[i]] + s[i + 1..SkipWs(s, i)];
    }
  }

  /** A greedy `\s*` stops at the first non-whitespace character. */
  lemma {:induction false} SkipWsStops(s: string, i: nat, k: nat)
    requires i <= k < |s| && !IsWhitespace(s[k])
    ensures SkipWs(s, i) <= k
    decreases |s| - i
  {
    if i < k {
      SkipWsStops(s, i + 1, k);
    }
  }

  /** Starting inside a whitespace run gives the same end as starting at its head. */
  lemma {:induction false} SkipWsFrom(s: string, i: nat, j: nat)
    requires i <= j <= |s| && AllWhitespace(s[i..j])
    ensures SkipWs(s, i) == SkipWs(s, j)
    decreases j - i
  {
    if i < j {
      assert IsWhitespace(s[i..j][0]);
      assert s[i + 1..j] == s[i..j][1..];
      SkipWsFrom(s, i + 1, j);
    }
  }

  /** A whitespace prefix ends no later than where SkipWs stops. */
  lemma WhitespaceWithinSkip(s: string, i: nat, a: nat)
    requires i <= a <= |s| && AllWhitespace(s[i..a])
    ensures a <= SkipWs(s, i)
  {
    SkipWsFrom(s, i, a);
  }

  /** A match found by FindFence is a match of the expression, with the greedy
      whitespace, the shortest capture, and no opening anywhere before it. */
  lemma FindFenceSound(s: string, opener: string)
    requires FindFence(s, opener).Some?
    ensures var m := FindFence(s, opener).value;
      && IsMatch(s, opener, m)
      && m.begin == SkipWs(s, m.start + |opener|)
      && (forall e :: m.begin <= e < m.end ==> !ClosesAt(s, e))
      && (forall i :: 0 <= i < m.start ==> !OccursAt(s, opener, i))
  {
    var p := IndexOf(s, opener, 0).value;
    var b := SkipWs(s, p + |opener|);
    SkipWsRun(s, p + |opener|);
    FirstCloseSpec(s, b);
    IndexOfSpec(s, opener, 0);
  }

  /** Whitespace before a position does not change whether a closing fence follows it. */
  lemma ClosesAtAfterWhitespace(s: string, e: nat, j: nat)
    requires e <= j <= |s| && AllWhitespace(s[e..j])
    ensures ClosesAt(s, e) == ClosesAt(s, j)
  {
    SkipWsFrom(s, e, j);
  }

  predicate NoWhitespaceIn(t: string) {
    forall i :: 0 <= i < |t| ==> !IsWhitespace(t[i])
  }

  /** Any match of the expression starting at the first opening has a closing position
      at or after the greedy whitespace. */
  lemma MatchAtFirst(s: string, opener: string, m: Fence)
    requires IsMatch(s, opener, m)
    ensures FirstClose(s, SkipWs(s, m.start + |opener|)).Some?
  {
    var q := m.start + |opener|;
    var b := SkipWs(s, q);
    WhitespaceWithinSkip(s, q, m.begin);
    if m.end < b {
      SkipWsRun(s, q);
      assert s[m.end..b] == s[q..b][m.end - q..];
      ClosesAtAfterWhitespace(s, m.end, b);
      FirstCloseReaches(s, b, b);
    } else {
      FirstCloseReaches(s, b, m.end);
    }
  }

  /** A later opening ends its greedy whitespace no earlier than the first one does,
      provided the opener holds no whitespace. */
  lemma LaterOpening(s: string, opener: string, p0: nat, p: nat)
    requires opener != [] && NoWhitespaceIn(opener)
    requires p0 < p && p + |opener| <= |s|
    requires OccursAt(s, opener, p0) && OccursAt(s, opener, p)
    ensures SkipWs(s, p0 + |opener|) <= p + |opener|
  {
    var q0 := p0 + |opener|;
    if p < q0 {
      assert s[q0] == s[p..p + |opener|][q0 - p] == opener[q0 - p];
      SkipWsStops(s, q0, q0);
    } else {
      assert s[p] == s[p..p + |opener|][0] == opener[0];
      SkipWsStops(s, q0, p);
    }
  }

  /** A closing position at or after `from` means FirstClose finds one. */
  lemma {:induction false} FirstCloseReaches(s: string, from: nat, e: nat)
    requires from <= e <= |s| && ClosesAt(s, e)
    ensures FirstClose(s, from).Some?
    decreases e - from
  {
    if from < e && !ClosesAt(s, from) {
      FirstCloseReaches(s, from + 1, e);
    }
  }

  /** An occurrence at or after `from` means IndexOf finds one no later. */
  lemma {:induction false} IndexOfReaches(s: string, pat: string, from: nat, k: nat)
    requires from <= k <= |s| && OccursAt(s, pat, k)
    ensures IndexOf(s, pat, from).Some? && IndexOf(s, pat, from).value <= k
    decreases k - from
  {
    if from < k && !OccursAt(s, pat, from) {
      IndexOfReaches(s, pat, from + 1, k);
    }
  }

  /** FindFence finds nothing only when the expression has no match at all. */
  lemma FindFenceComplete(s: string, opener: string, m: Fence)
    requires opener != [] && NoWhitespaceIn(opener)
    requires IsMatch(s, opener, m)
    ensures FindFence(s, opener).Some?
  {
    IndexOfReaches(s, opener, 0, m.start);
    var p0 := IndexOf(s, opener, 0).value;
    var b0 := SkipWs(s, p0 + |opener|);
    assert p0 + |opener| <= |s|;
    if p0 == m.start {
      MatchAtFirst(s, opener, m);
    } else {
      LaterOpening(s, opener, p0, m.start);
      FirstCloseReaches(s, b0, m.end);
    }
    FindFenceIs(s, opener, p0, b0, FirstClose(s, b0).value);
  }

  lemma OpenersHaveNoWhitespace()
    ensures NoWhitespaceIn(JsonFence) && NoWhitespaceIn(BareFence)
  {
  }

  /** A closing fence right at `e` closes there. */
  lemma FenceCloses(s: string, e: nat)
    requires e <= |s|
    ensures FenceAt(s, e) ==> ClosesAt(s, e)
  {
    if FenceAt(s, e) {
      assert SkipWs(s, e) == e;
    }
  }

  /** The capture of a match found by FindFence has no whitespace at either end and no
      closing fence inside. */
  lemma CaptureShape(s: string, opener: string)
    requires FindFence(s, opener).Some?
    ensures var m := FindFence(s, opener).value;
      && IsTrimmed(Capture(s, m))
      && forall i :: m.begin <= i < m.end ==> !FenceAt(s, i)
  {
    FindFenceSound(s, opener);
    var m := FindFence(s, opener).value;
    var c := Capture(s, m);
    forall i | m.begin <= i < m.end ensures !FenceAt(s, i) {
      assert !ClosesAt(s, i);
      FenceCloses(s, i);
    }
    if c != [] {
      assert c[0] == s[m.begin];
      var last := m.end - 1;
      if IsWhitespace(s[last]) {
        assert s[last..m.end] == [s[last]];
        ClosesAtAfterWhitespace(s, last, m.end);
        assert false;
      }
    }
  }

  /** Without backticks there is no fence to find. */
  lemma NoFenceWithoutBacktick(s: string, opener: string)
    requires '`' !in s && opener != [] && opener[0] == '`'
    ensures FindFence(s, opener).None?
  {
    forall i | 0 <= i <= |s| ensures !OccursAt(s, opener, i) {
      if i < |s| {
        NotAt(s, opener, i);
      }
    }
  }

  /** A reply without backticks is passed to the parser as it is. */
  lemma ExtractWithoutFence(reply: string)
    requires '`' !in reply
    ensures ExtractJson(reply) == reply
  {
    NoFenceWithoutBacktick(reply, JsonFence);
    NoFenceWithoutBacktick(reply, BareFence);
  }

  lemma {:induction false} FirstCloseIs(s: string, from: nat, e: nat)
    requires from <= e <= |s| && ClosesAt(s, e)
    requires forall k :: from <= k < e ==> !ClosesAt(s, k)
    ensures FirstClose(s, from) == Some(e)
    decreases e - from
  {
    if from < e {
      FirstCloseIs(s, from + 1, e);
    }
  }

  lemma {:induction false} IndexOfIs(s: string, pat: string, from: nat, k: nat)
    requires from <= k <= |s| && OccursAt(s, pat, k)
    requires forall i :: from <= i < k ==> !OccursAt(s, pat, i)
    ensures IndexOf(s, pat, from) == Some(k)
    decreases k - from
  {
    if from < k {
      IndexOfIs(s, pat, from + 1, k);
    }
  }

  /** SkipWs stops at the end of a whitespace run that is followed by anything else. */
  lemma SkipOver(s: string, i: nat, j: nat)
    requires i <= j <= |s| && AllWhitespace(s[i..j])
    requires j == |s| || !IsWhitespace(s[j])
    ensures SkipWs(s, i) == j
  {
    SkipWsFrom(s, i, j);
  }

  /** A fenced reply by positions: the first opening at `p`, whitespace up to `b`, a
      payload without backticks and with no whitespace at its ends up to `c`,
      whitespace up to `d` and a closing fence at `d`. */
  lemma FenceOf(s: string, opener: string, p: nat, b: nat, c: nat, d: nat)
    requires IndexOf(s, opener, 0) == Some(p)
    requires p + |opener| <= b < c <= d <= |s|
    requires AllWhitespace(s[p + |opener|..b]) && AllWhitespace(s[c..d])
    requires !IsWhitespace(s[b]) && !IsWhitespace(s[c - 1])
    requires forall k :: b <= k < c ==> s[k] != '`'
    requires FenceAt(s, d)
    ensures FindFence(s, opener) == Some(Fence(p, b, c))
  {
    SkipOver(s, p + |opener|, b);
    PayloadNoClose(s, b, c);
    SkipOver(s, c, d);
    FirstCloseIs(s, b, c);
    FindFenceIs(s, opener, p, b, c);
  }

  lemma FindFenceIs(s: string, opener: string, p: nat, b: nat, e: nat)
    requires IndexOf(s, opener, 0) == Some(p) && p + |opener| <= |s|
    requires SkipWs(s, p + |opener|) == b && FirstClose(s, b) == Some(e)
    ensures FindFence(s, opener) == Some(Fence(p, b, e))
  {
  }

  /** Where the parts of a fenced reply sit. */
  lemma Layout(pre: string, opener: string, ws1: string, payload: string, ws2: string, post: string)
    ensures var s := pre + opener + ws1 + payload + ws2 + BareFence + post;
      var q := |pre| + |opener|;
      var b := q + |ws1|;
      var c := b + |payload|;
      var d := c + |ws2|;
      && |s| == d + 3 + |post|
      && s[..|pre|] == pre && s[|pre|..q] == opener && s[q..b] == ws1
      && s[b..c] == payload && s[c..d] == ws2 && FenceAt(s, d)
  {
    var s := pre + opener + ws1 + payload + ws2 + BareFence + post;
    var x1 := pre + opener;
    var x2 := x1 + ws1;
    var x3 := x2 + payload;
    var x4 := x3 + ws2;
    var x5 := x4 + BareFence;
    assert s == x5 + post;
    assert s[..|x5|] == x5;
    assert x5[..|x4|] == x4;
    assert x4[..|x3|] == x3;
    assert x3[..|x2|] == x2;
    assert x2[..|x1|] == x1;
    assert s[|x4|..|x5|] == x5[|x4|..] == BareFence;
    assert s[|x3|..|x4|] == x4[|x3|..] == ws2;
    assert s[|x2|..|x3|] == x3[|x2|..] == payload;
    assert s[|x1|..|x2|] == x2[|x1|..] == ws1;
    assert s[|pre|..|x1|] == x1[|pre|..] == opener;
    assert s[..|pre|] == x1[..|pre|] == pre;
    BareFenceAt(s, |x4|);
  }

  /** No closing position inside a run without backticks whose last character is not
      whitespace. */
  lemma PayloadNoClose(s: string, b: nat, c: nat)
    requires b < c <= |s| && !IsWhitespace(s[c - 1])
    requires forall k :: b <= k < c ==> s[k] != '`'
    ensures forall e :: b <= e < c ==> !ClosesAt(s, e)
  {
    forall e | b <= e < c ensures !ClosesAt(s, e) {
      SkipWsStops(s, e, c - 1);
      assert s[SkipWs(s, e)] != '`';
    }
  }

  /** An occurrence ruled out by its first character. */
  lemma NotAt(s: string, pat: string, i: nat)
    requires pat != [] && i < |s| && s[i] != pat[0]
    ensures !OccursAt(s, pat, i)
  {
  }

  /** The first opening of a reply without earlier backticks, around a payload without
      backticks and with no whitespace at its ends, is the match FindFence finds. */
  lemma FenceOfLayout(s: string, pre: string, opener: string, ws1: string, payload: string, ws2: string, post: string)
    requires s == pre + opener + ws1 + payload + ws2 + BareFence + post
    requires opener != [] && opener[0] == '`'
    requires '`' !in pre && '`' !in payload
    requires AllWhitespace(ws1) && AllWhitespace(ws2)
    requires payload != [] && IsTrimmed(payload)
    ensures var b := |pre| + |opener| + |ws1|;
      && FindFence(s, opener) == Some(Fence(|pre|, b, b + |payload|))
      && s[b..b + |payload|] == payload
  {
    Layout(pre, opener, ws1, payload, ws2, post);
    var q := |pre| + |opener|;
    var b := q + |ws1|;
    var c := b + |payload|;
    var d := c + |ws2|;
    FirstOpening(s, opener, pre);
    PayloadChars(s, b, payload);
    FenceOf(s, opener, |pre|, b, c, d);
  }

  /** An opening right after a prefix without backticks is the first one. */
  lemma FirstOpening(s: string, opener: string, pre: string)
    requires opener != [] && opener[0] == '`' && '`' !in pre
    requires |pre| + |opener| <= |s| && s[..|pre|] == pre && s[|pre|..|pre| + |opener|] == opener
    ensures IndexOf(s, opener, 0) == Some(|pre|)
  {
    forall i | 0 <= i < |pre| ensures !OccursAt(s, opener, i) {
      assert s[i] == pre[i];
      NotAt(s, opener, i);
    }
    IndexOfIs(s, opener, 0, |pre|);
  }

  lemma PayloadChars(s: string, b: nat, payload: string)
    requires b + |payload| <= |s| && s[b..b + |payload|] == payload
    requires payload != [] && IsTrimmed(payload) && '`' !in payload
    ensures forall k :: b <= k < b + |payload| ==> s[k] != '`'
    ensures !IsWhitespace(s[b]) && !IsWhitespace(s[b + |payload| - 1])
  {
    forall k | b <= k < b + |payload| ensures s[k] != '`' {
      assert s[k] == payload[k - b];
    }
    assert s[b] == payload[0] && s[b + |payload| - 1] == payload[|payload| - 1];
  }

  /** The reply with a first `json` fence around a trimmed payload gives that payload to
      the parser. */
  lemma ExtractJsonFence(pre: string, ws1: string, payload: string, ws2: string, post: string)
    requires '`' !in pre && '`' !in payload
    requires AllWhitespace(ws1) && AllWhitespace(ws2)
    requires payload != [] && IsTrimmed(payload)
    ensures ExtractJson(pre + JsonFence + ws1 + payload + ws2 + BareFence + post) == payload
  {
    FenceOfLayout(pre + JsonFence + ws1 + payload + ws2 + BareFence + post, pre, JsonFence, ws1, payload, ws2, post);
  }

  /** Without a `json` fence, the first bare fence around a trimmed payload gives that
      payload to the parser. The payload may follow the opening directly unless it
      starts with `j`, where the opening could be read as a `json` one. */
  lemma ExtractBareFence(pre: string, ws1: string, payload: string, ws2: string, post: string)
    requires '`' !in pre && '`' !in payload && '`' !in post
    requires AllWhitespace(ws1) && AllWhitespace(ws2)
    requires payload != [] && IsTrimmed(payload)
    requires ws1 != [] || payload[0] != 'j'
    ensures ExtractJson(pre + BareFence + ws1 + payload + ws2 + BareFence + post) == payload
  {
    NoJsonOpening(pre, ws1, payload, ws2, post);
    FenceOfLayout(pre + BareFence + ws1 + payload + ws2 + BareFence + post, pre, BareFence, ws1, payload, ws2, post);
  }

  /** An occurrence ruled out by one of its characters. */
  lemma NotAtOffset(s: string, pat: string, i: nat, k: nat)
    requires k < |pat| && i + k < |s| && s[i + k] != pat[k]
    ensures !OccursAt(s, pat, i)
  {
    if i + |pat| <= |s| {
      assert s[i..i + |pat|][k] == s[i + k];
    }
  }

  /** A reply whose only fences are a bare opening, not followed by `j`, and a closing
      fence has no `json` match: the only place a `json` opening can start is the
      closing fence, and nothing after it can close. */
  lemma NoJsonOpening(pre: string, ws1: string, payload: string, ws2: string, post: string)
    requires '`' !in pre && '`' !in payload && '`' !in post
    requires AllWhitespace(ws1) && AllWhitespace(ws2)
    requires payload != [] && (ws1 != [] || payload[0] != 'j')
    ensures FindFence(pre + BareFence + ws1 + payload + ws2 + BareFence + post, JsonFence).None?
  {
    var s := pre + BareFence + ws1 + payload + ws2 + BareFence + post;
    Layout(pre, BareFence, ws1, payload, ws2, post);
    var q := |pre| + 3;
    var d := q + |ws1| + |payload| + |ws2|;
    assert s[q] != 'j' && s[q] != '`' by {
      if ws1 != [] {
        assert s[q] == ws1[0];
      } else {
        assert s[q] == payload[0];
      }
    }
    forall i | 0 <= i <= |s| && i != d ensures !OccursAt(s, JsonFence, i) {
      if i + 7 > |s| {
      } else if i < |pre| {
        assert s[i] == pre[i];
        NotAt(s, JsonFence, i);
      } else if i == |pre| {
        NotAtOffset(s, JsonFence, i, 3);
      } else if i < q {
        NotAtOffset(s, JsonFence, i, q - i);
      } else if i < d {
        if i < q + |ws1| {
          assert s[i] == ws1[i - q];
        } else if i < q + |ws1| + |payload| {
          assert s[i] == payload[i - q - |ws1|];
        } else {
          assert s[i] == ws2[i - q - |ws1| - |payload|];
        }
        NotAt(s, JsonFence, i);
      } else if i < d + 3 {
        assert s[d + 3] == post[0];
        NotAtOffset(s, JsonFence, i, d + 3 - i);
      } else {
        assert s[i] == post[i - d - 3];
        NotAt(s, JsonFence, i);
      }
    }
    var at := IndexOf(s, JsonFence, 0);
    if at.Some? && at.value + |JsonFence| <= |s| {
      assert at.value == d;
      var close := FirstClose(s, SkipWs(s, d + |JsonFence|));
      if close.Some? {
        assert false;
      }
    }
  }

  /** The parser gets either the whole reply or a non-empty capture with no whitespace
      at either end and no closing fence inside. */
  lemma ExtractJsonShape(reply: string)
    ensures var r := ExtractJson(reply);
      r == reply || (r != [] && IsTrimmed(r) && forall i :: 0 <= i <= |r| ==> !FenceAt(r, i))
  {
    var json := FindFence(reply, JsonFence);
    var opener := if json.Some? then JsonFence else BareFence;
    if FindFence(reply, opener).Some? {
      var m := FindFence(reply, opener).value;
      if m.begin < m.end {
        CaptureShape(reply, opener);
        CaptureNoFence(reply, m.begin, m.end);
      }
    }
  }

  lemma CaptureNoFence(s: string, b: nat, e: nat)
    requires b <= e <= |s|
    requires forall j :: b <= j < e ==> !FenceAt(s, j)
    ensures forall i :: 0 <= i <= e - b ==> !FenceAt(s[b..e], i)
  {
    forall i | 0 <= i <= e - b ensures !FenceAt(s[b..e], i) {
      if i + 3 <= e - b {
        assert s[b..e][i] == s[b + i];
        assert s[b..e][i + 1] == s[b + i + 1];
        assert s[b..e][i + 2] == s[b + i + 2];
        assert !FenceAt(s, b + i);
      }
    }
  }
}
