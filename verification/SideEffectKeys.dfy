/**
  Keys of side effects. The runtime derives the key of one logical tool call from
  run, plan and step; the registry appends the position of each intent.
 */
module SideEffectKeys {
  import opened SideEffects
  import opened OutboxMachine

  function Digit(d: nat): (c: char)
    requires d < 10
    ensures '0' <= c <= '9'
  {
    '0' + d as char
  }

  predicate IsDigits(s: string) {
    forall i :: 0 <= i < |s| ==> '0' <= s[i] <= '9'
  }

  function Decimal(n: nat): (s: string)
    ensures IsDigits(s) && |s| > 0 && (n < 10 <==> |s| == 1)
  {
    if n < 10 then [Digit(n)] else Decimal(n / 10) + [Digit(n % 10)]
  }

  lemma {:induction false} DecimalInjective(a: nat, b: nat)
    requires Decimal(a) == Decimal(b)
    ensures a == b
  {
    var s, t := Decimal(a), Decimal(b);
    assert s[|s| - 1] == t[|t| - 1];
    if a >= 10 && b >= 10 {
      assert s[..|s| - 1] == Decimal(a / 10) && t[..|t| - 1] == Decimal(b / 10);
      DecimalInjective(a / 10, b / 10);
    }
  }

  function LogicalKey(run: string, plan: string, step: string): string {
    "run:" + run + ":plan:" + plan + ":step:" + step
  }

  const MARK := ":side_effect:"

  function IntentKey(invocation: string, index: nat): string {
    invocation + MARK + Decimal(index)
  }

  function TrailingDigits(s: string): nat {
    if s == [] || !('0' <= s[|s| - 1] <= '9') then 0 else 1 + TrailingDigits(s[..|s| - 1])
  }

  lemma {:induction false} DigitsAfterColon(p: string, t: string)
    requires IsDigits(t) && |p| > 0 && p[|p| - 1] == ':'
    ensures TrailingDigits(p + t) == |t|
  {
    if t == [] {
      assert p + t == p;
    } else {
      assert (p + t)[..|p + t| - 1] == p + t[..|t| - 1];
      DigitsAfterColon(p, t[..|t| - 1]);
    }
  }

  lemma IntentKeyInjective(x: string, i: nat, y: string, j: nat)
    requires IntentKey(x, i) == IntentKey(y, j)
    ensures x == y && i == j
  {
    DigitsAfterColon(x + MARK, Decimal(i));
    DigitsAfterColon(y + MARK, Decimal(j));
    var k := IntentKey(x, i);
    assert Decimal(i) == k[|k| - |Decimal(i)|..] == Decimal(j);
    DecimalInjective(i, j);
    assert x == k[..|k| - |Decimal(i)| - |MARK|] == y;
  }

  /** Within a run and a plan, two intents share a key only if they are the same intent
      of the same step, whatever characters the step names contain. */
  lemma KeysTellIntentsApart(run: string, plan: string, s: string, i: nat, t: string, j: nat)
    requires IntentKey(LogicalKey(run, plan, s), i) == IntentKey(LogicalKey(run, plan, t), j)
    ensures s == t && i == j
  {
    IntentKeyInjective(LogicalKey(run, plan, s), i, LogicalKey(run, plan, t), j);
    var prefix := "run:" + run + ":plan:" + plan + ":step:";
    assert LogicalKey(run, plan, s)[|prefix|..] == s;
    assert LogicalKey(run, plan, t)[|prefix|..] == t;
  }

  /** The call the registry prepares for one step; every attempt prepares the same one. */
  function PrepareCall(run: string, plan: string, step: string, intents: seq<Effect>, retrySafe: bool): Call {
    Call(seq(|intents|, i requires i >= 0 => IntentKey(LogicalKey(run, plan, step), i)), intents, retrySafe)
  }

  lemma PreparedCallsAreValid(run: string, plan: string, step: string, intents: seq<Effect>, retrySafe: bool)
    ensures PrepareCall(run, plan, step, intents, retrySafe).Valid()
  {
    var c := PrepareCall(run, plan, step, intents, retrySafe);
    forall i, j | 0 <= i < j < |c.keys| ensures c.keys[i] != c.keys[j] {
      if c.keys[i] == c.keys[j] {
        KeysTellIntentsApart(run, plan, step, i, step, j);
      }
    }
  }
}
