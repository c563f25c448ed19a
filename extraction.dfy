/** Extraction of the JSON payload from the model's reply text: the first
    fenced ```json block, otherwise the span from the first `{` to the last
    `}`.  Both searches return positions, so the payload is always a
    substring of the reply. */
module Extraction {
  import opened Wrappers
  import opened Text

  /** The opening fence of `/```json\n([\s\S]*?)\n```/`. */
  const Open: string := "```json\n"
  /** The closing fence. */
  const Close: string := "\n```"

  /** The leftmost match of the fenced pattern, as (start of the opening
      fence, start of the closing fence).  The lazy group stops at the first
      closing fence after the opening one.  Starting at a later opening fence
      never helps: it leaves fewer closing fences to choose from, so the first
      opening fence decides. */
  function FencedBlock(s: string): (r: Option<(nat, nat)>)
    ensures r.Some? ==> MatchesAt(s, Open, r.value.0) && MatchesAt(s, Close, r.value.1)
    ensures r.Some? ==> r.value.0 + |Open| <= r.value.1
    ensures r.Some? ==> forall j: nat :: j < r.value.0 ==> !MatchesAt(s, Open, j)
    ensures r.Some? ==> forall j: nat :: r.value.0 + |Open| <= j < r.value.1 ==> !MatchesAt(s, Close, j)
    ensures r.None? ==> forall i: nat, j: nat :: i + |Open| <= j && MatchesAt(s, Open, i) ==> !MatchesAt(s, Close, j)
  {
    match IndexOf(s, Open, 0)
    case None => None
    case Some(i) =>
      match IndexOf(s, Close, i + |Open|)
      case None => None
      case Some(j) => Some((i, j))
  }

  /** Matching the one-character pattern "{" is finding the character. */
  lemma OpenBraceAt(s: string)
    ensures forall j: nat :: j < |s| ==> (MatchesAt(s, "{", j) <==> s[j] == '{')
  {
    forall j: nat | j < |s| ensures MatchesAt(s, "{", j) <==> s[j] == '{' {
      assert s[j..j + 1] == [s[j]];
    }
  }

  /** The match of `/\{[\s\S]*\}/` as a half-open span: from the first `{`
      to the last `}`, provided that `}` comes after it. */
  function BraceSpan(s: string): (r: Option<(nat, nat)>)
    ensures r.Some? ==> r.value.0 < r.value.1 <= |s|
    ensures r.Some? ==> s[r.value.0] == '{' && s[r.value.1 - 1] == '}'
    ensures r.Some? ==> forall j :: 0 <= j < r.value.0 ==> s[j] != '{'
    ensures r.Some? ==> forall j :: r.value.1 <= j < |s| ==> s[j] != '}'
    ensures r.None? ==> forall i, j :: 0 <= i < j < |s| && s[i] == '{' ==> s[j] != '}'
  {
    OpenBraceAt(s);
    match IndexOf(s, "{", 0)
    case None => None
    case Some(i) =>
      match LastIndexOf(s, '}')
      case None => None
      case Some(k) => if i < k then Some((i, k + 1)) else None
  }

  /** The text handed to `JSON.parse`: `jsonMatch[1] || jsonMatch[0]`.  An
      empty fenced block is falsy, so then the whole match, fences included,
      is used; the brace pattern has no group and always gives its whole
      match.  `None` is "No JSON found in response". */
  function ExtractSpan(s: string): (r: Option<(nat, nat)>)
    ensures r.Some? ==> r.value.0 <= r.value.1 <= |s|
    ensures r.Some? ==> r.value.0 < r.value.1
    ensures r.None? <==> FencedBlock(s).None? && BraceSpan(s).None?
    ensures FencedBlock(s).Some? && FencedBlock(s).value.0 + |Open| < FencedBlock(s).value.1 ==>
      r == Some((FencedBlock(s).value.0 + |Open|, FencedBlock(s).value.1))
    ensures FencedBlock(s).Some? && FencedBlock(s).value.0 + |Open| == FencedBlock(s).value.1 ==>
      r == Some((FencedBlock(s).value.0, FencedBlock(s).value.1 + |Close|))
    ensures FencedBlock(s).None? ==> r == BraceSpan(s)
  {
    match FencedBlock(s)
    case Some((i, j)) =>
      if i + |Open| < j then Some((i + |Open|, j)) else Some((i, j + |Close|))
    case None => BraceSpan(s)
  }

  /** The extracted payload text: the fenced block's content when it is
      not empty, the whole fenced match when it is, and otherwise the
      braced span. */
  function ExtractJson(s: string): (r: Option<string>)
    ensures r.Some? ==> r.value != "" && exists a, b :: 0 <= a <= b <= |s| && r.value == s[a..b]
    ensures r.None? <==> FencedBlock(s).None? && BraceSpan(s).None?
    ensures FencedBlock(s).Some? ==>
      var i, j := FencedBlock(s).value.0, FencedBlock(s).value.1;
      r == Some(if s[i + |Open|..j] != "" then s[i + |Open|..j] else s[i..j + |Close|])
    ensures FencedBlock(s).None? && BraceSpan(s).Some? ==>
      r == Some(s[BraceSpan(s).value.0..BraceSpan(s).value.1])
  {
    match ExtractSpan(s)
    case None => None
    case Some((a, b)) => Some(s[a..b])
  }

  /** A reply that is exactly one fenced block around a non-empty payload
      without backquotes gives back that payload. */
  lemma FencedRoundTrip(p: string)
    requires p != [] && '`' !in p
    ensures ExtractJson(Open + p + Close) == Some(p)
  {
    var s := Open + p + Close;
    assert MatchesAt(s, Open, 0) by {
      assert s[0..|Open|] == Open;
    }
    var n := |Open| + |p|;
    assert MatchesAt(s, Close, n) by {
      assert s[n..n + |Close|] == Close;
    }
    forall j: nat | |Open| <= j < n ensures !MatchesAt(s, Close, j) {
      assert s[j + 1] != '`' by {
        if j + 1 < n {
          assert s[j + 1] == p[j + 1 - |Open|];
        } else {
          assert s[j + 1] == Close[0];
        }
      }
      assert Close[1] == '`';
    }
    assert FencedBlock(s) == Some((0, n));
    assert s[|Open|..n] == p;
  }

  /** The first `{` of `pre + p + post` opens `p` when `pre` holds none. */
  lemma FirstBraceAfter(pre: string, p: string, post: string)
    requires |p| >= 1 && p[0] == '{' && '{' !in pre
    ensures IndexOf(pre + p + post, "{", 0) == Some(|pre|)
  {
    var s := pre + p + post;
    OpenBraceAt(s);
    assert s[|pre|] == '{';
    forall j: nat | j < |pre| ensures !MatchesAt(s, "{", j) {
      assert s[j] == pre[j];
    }
  }

  /** The last `}` of `pre + p + post` closes `p` when `post` holds none. */
  lemma LastBraceBefore(pre: string, p: string, post: string)
    requires |p| >= 1 && p[|p| - 1] == '}' && '}' !in post
    ensures LastIndexOf(pre + p + post, '}') == Some(|pre| + |p| - 1)
  {
    var s := pre + p + post;
    var b := |pre| + |p|;
    assert s[b - 1] == '}';
    forall j | b - 1 < j < |s| ensures s[j] != '}' {
      assert s[j] == post[j - b] && post[j - b] in post;
    }
    LastIndexOfIs(s, '}', b - 1);
  }

  /** Without a fenced block, the payload is the span between the outermost
      braces when the text around it holds no braces. */
  lemma BraceRoundTrip(pre: string, p: string, post: string)
    requires |p| >= 2 && p[0] == '{' && p[|p| - 1] == '}'
    requires '{' !in pre && '}' !in post
    requires FencedBlock(pre + p + post).None?
    ensures ExtractJson(pre + p + post) == Some(p)
  {
    var s := pre + p + post;
    FirstBraceAfter(pre, p, post);
    LastBraceBefore(pre, p, post);
    assert BraceSpan(s) == Some((|pre|, |pre| + |p|));
    assert s[|pre|..|pre| + |p|] == p;
  }
}
