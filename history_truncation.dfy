/** Cutting a chat history to a token budget: the longest suffix whose token total stays below
    the budget. The tokenizer is a parameter giving the number of tokens of a message's content. */
module HistoryTruncation {
  import opened Schemas

  const DefaultMaxTokens: int := 7000

  /** The token total of a history. */
  function Total(h: seq<Message>, tokens: string -> nat): nat {
    if h == [] then 0 else tokens(h[0].content) + Total(h[1..], tokens)
  }

  /** The history with its oldest entries dropped, one by one, until what is left totals fewer
      than `maxTokens` tokens or nothing is left. Its properties are stated by `TruncatedFits`. */
  function Truncated(h: seq<Message>, maxTokens: int, tokens: string -> nat): seq<Message> {
    if h == [] || Total(h, tokens) < maxTokens then h else Truncated(h[1..], maxTokens, tokens)
  }

  /** The truncated history is a suffix of the history that fits the budget unless it is empty;
      a history that already fits is returned unchanged; and when something was cut, putting
      back the entry just before the cut breaks the budget. */
  lemma TruncatedFits(h: seq<Message>, maxTokens: int, tokens: string -> nat)
    ensures var r := Truncated(h, maxTokens, tokens);
      && |r| <= |h| && r == h[|h| - |r|..]
      && (r == [] || Total(r, tokens) < maxTokens)
      && (Total(h, tokens) < maxTokens ==> r == h)
      && (|r| < |h| ==> Total(h[|h| - |r| - 1..], tokens) >= maxTokens)
  {
    TruncatedIsSuffix(h, maxTokens, tokens);
    var r := Truncated(h, maxTokens, tokens);
    if |r| < |h| && Total(h[|h| - |r| - 1..], tokens) < maxTokens {
      TruncatedIsLongestFittingSuffix(h, maxTokens, tokens, |h| - |r| - 1);
    }
  }

  lemma {:induction false} TruncatedIsSuffix(h: seq<Message>, maxTokens: int, tokens: string -> nat)
    ensures var r := Truncated(h, maxTokens, tokens);
      && |r| <= |h| && r == h[|h| - |r|..]
      && (r == [] || Total(r, tokens) < maxTokens)
  {
    if h == [] || Total(h, tokens) < maxTokens {
      assert h[0..] == h;
    } else {
      var rest := Truncated(h[1..], maxTokens, tokens);
      assert Truncated(h, maxTokens, tokens) == rest;
      TruncatedIsSuffix(h[1..], maxTokens, tokens);
      assert h[1..][|h| - 1 - |rest|..] == h[|h| - |rest|..];
    }
  }

  /** Longer suffixes never total fewer tokens. */
  lemma {:induction false} SuffixMonotone(h: seq<Message>, i: nat, j: nat, tokens: string -> nat)
    requires i <= j <= |h|
    ensures Total(h[j..], tokens) <= Total(h[i..], tokens)
    decreases j - i
  {
    if i < j {
      assert h[i..][1..] == h[i + 1..];
      SuffixMonotone(h, i + 1, j, tokens);
    }
  }

  /** The cut is at `k` when the suffix from `k` fits (or is empty) and the suffix from `k - 1`
      does not. */
  lemma {:induction false} TruncatedFrom(h: seq<Message>, maxTokens: int, tokens: string -> nat, k: nat)
    requires k <= |h|
    requires k == |h| || Total(h[k..], tokens) < maxTokens
    requires k > 0 ==> Total(h[k - 1..], tokens) >= maxTokens
    ensures Truncated(h, maxTokens, tokens) == h[k..]
    decreases k
  {
    if k == 0 {
      assert h[0..] == h;
    } else {
      SuffixMonotone(h, 0, k - 1, tokens);
      assert h[0..] == h;
      assert h[1..][k - 1..] == h[k..];
      if k > 1 {
        assert h[1..][k - 2..] == h[k - 1..];
      }
      TruncatedFrom(h[1..], maxTokens, tokens, k - 1);
    }
  }

  /** No suffix that fits the budget is longer than the truncated history. */
  lemma {:induction false} TruncatedIsLongestFittingSuffix(h: seq<Message>, maxTokens: int, tokens: string -> nat, j: nat)
    requires j <= |h| && Total(h[j..], tokens) < maxTokens
    ensures |h| - j <= |Truncated(h, maxTokens, tokens)|
  {
    if h != [] && Total(h, tokens) >= maxTokens {
      assert h[0..] == h;
      assert h[1..][j - 1..] == h[j..];
      TruncatedIsLongestFittingSuffix(h[1..], maxTokens, tokens, j - 1);
    }
  }

  /** When the newest entry alone reaches the budget, nothing is kept. */
  lemma {:induction false} LastEntryTooBig(h: seq<Message>, maxTokens: int, tokens: string -> nat)
    requires h != [] && tokens(h[|h| - 1].content) >= maxTokens
    ensures Truncated(h, maxTokens, tokens) == []
  {
    assert h[|h| - 1..][1..] == [];
    TruncatedFrom(h, maxTokens, tokens, |h|);
  }

  /** The backward accumulation loop: add each entry's tokens from the newest on, and cut just
      after the first entry at which the total reaches the budget. */
  method TruncateHistory(h: seq<Message>, maxTokens: int, tokens: string -> nat) returns (r: seq<Message>)
    ensures r == Truncated(h, maxTokens, tokens)
  {
    var total := 0;
    var i := |h| - 1;
    while i >= 0
      invariant -1 <= i < |h|
      invariant total == Total(h[i + 1..], tokens)
      invariant i + 1 == |h| || total < maxTokens
      decreases i
    {
      assert h[i..][1..] == h[i + 1..];
      total := total + tokens(h[i].content);
      if total >= maxTokens {
        TruncatedFrom(h, maxTokens, tokens, i + 1);
        return h[i + 1..];
      }
      i := i - 1;
    }
    TruncatedFrom(h, maxTokens, tokens, 0);
    assert h[0..] == h;
    r := h;
  }
}
