/** Container names: they double as the log from which a restarted orchestrator recovers. */
module Names {

  const PREFIX_WARM := "github-mux-warm-"
  const PREFIX_ACTIVE := "github-mux-active-"

  function TrimPrefix(s: string, prefix: string): string {
    if prefix <= s then s[|prefix|..] else s
  }

  /** Index of the last dash, or -1. */
  function LastDash(s: string): (i: int)
    ensures -1 <= i < |s|
    ensures i >= 0 ==> s[i] == '-'
    ensures forall k :: i < k < |s| ==> s[k] != '-'
  {
    if s == "" then -1
    else if s[|s| - 1] == '-' then |s| - 1
    else LastDash(s[..|s| - 1])
  }

  function ParseRunner(name: string): string {
    var s := TrimPrefix(name, PREFIX_ACTIVE);
    if LastDash(s) > 0 then s[..LastDash(s)] else s
  }

  predicate IsHexDigit(c: char) {
    '0' <= c <= '9' || 'a' <= c <= 'f'
  }

  /** The first group of a UUID, section 4 of RFC 9562: eight hexadecimal digits and no dash. */
  predicate IsShortId(s: string) {
    |s| == 8 && forall i :: 0 <= i < |s| ==> IsHexDigit(s[i])
  }

  function WarmName(short: string): string {
    PREFIX_WARM + short
  }

  function ActiveName(runner: string, short: string): string {
    PREFIX_ACTIVE + runner + "-" + short
  }

  predicate IsActiveName(name: string) {
    PREFIX_ACTIVE <= name
  }

  predicate IsWarmName(name: string) {
    PREFIX_WARM <= name
  }

  /** Parsing undoes the active-name format for every runner name except the empty one. */
  lemma ParseUndoesFormat(runner: string, short: string)
    requires IsShortId(short)
    ensures IsActiveName(ActiveName(runner, short))
    ensures ParseRunner(ActiveName(runner, short)) == runner <==> runner != ""
  {
    var name := ActiveName(runner, short);
    assert name == PREFIX_ACTIVE + (runner + "-" + short);
    var s := TrimPrefix(name, PREFIX_ACTIVE);
    assert s == runner + "-" + short;
    var d := LastDash(s);
    assert s[|runner|] == '-';
    assert forall k :: |runner| < k < |s| ==> s[k] == short[k - |runner| - 1] && IsHexDigit(s[k]);
    assert d == |runner|;
  }

  /** The two formats, by example. */
  lemma NamesByExample()
    ensures WarmName("1a2b3c4d") == "github-mux-warm-1a2b3c4d"
    ensures ActiveName("build", "1a2b3c4d") == "github-mux-active-build-1a2b3c4d"
  {
  }

  /** Two workers never get the same active name: it tells the runner and the id. */
  lemma ActiveNamesDiffer(r: string, a: string, q: string, b: string)
    requires IsShortId(a) && IsShortId(b) && ActiveName(r, a) == ActiveName(q, b)
    ensures r == q && a == b
  {
    EndsInId(r, a);
    EndsInId(q, b);
    var name := ActiveName(r, a);
    assert name[|PREFIX_ACTIVE|..|name| - 9] == r && name[|PREFIX_ACTIVE|..|name| - 9] == q;
  }

  lemma WarmNamesDiffer(a: string, b: string)
    requires WarmName(a) == WarmName(b)
    ensures a == b
  {
    assert WarmName(a)[|PREFIX_WARM|..] == a && WarmName(b)[|PREFIX_WARM|..] == b;
  }

  /** The last eight characters, where a name carries its id. */
  function Tail(name: string): string {
    if |name| < 8 then name else name[|name| - 8..]
  }

  lemma EndsInId(runner: string, short: string)
    requires IsShortId(short)
    ensures Tail(WarmName(short)) == short && Tail(ActiveName(runner, short)) == short
  {
    assert ActiveName(runner, short) == (PREFIX_ACTIVE + runner + "-") + short;
  }

  /** A name never carries both prefixes, so the order of the two tests is immaterial. */
  lemma PrefixesExclusive(name: string)
    ensures IsActiveName(name) ==> !IsWarmName(name)
  {
    if IsActiveName(name) {
      assert name[11] == PREFIX_ACTIVE[11];
    }
  }
}
