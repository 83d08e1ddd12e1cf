/** The text hashed for an idempotency key: method, path and body, separated by newlines. */
module RequestHash {
  import opened Common
  import opened Store

  const NEWLINE := '\n'

  function Encode(verb: string, path: string, body: string): string {
    verb + [NEWLINE] + path + [NEWLINE] + body + [NEWLINE]
  }

  function HashRequest(verb: string, path: string, body: string): Hash {
    Sha256(Encode(verb, path, body))
  }

  /** A line before the first newline can be read back. */
  lemma FirstLine(s: string, rest: string, t: string, others: string)
    requires NEWLINE !in s && NEWLINE !in t
    requires s + [NEWLINE] + rest == t + [NEWLINE] + others
    ensures s == t && rest == others
  {
    var a, b := s + [NEWLINE] + rest, t + [NEWLINE] + others;
    assert a[|s|] == NEWLINE && b[|t|] == NEWLINE;
    assert forall i | 0 <= i < |s| :: a[i] == s[i];
    assert forall i | 0 <= i < |t| :: b[i] == t[i];
    assert |s| == |t|;
    assert a[..|s|] == s && b[..|t|] == t && a[|s| + 1..] == rest && b[|t| + 1..] == others;
  }

  /** Two requests with the same hash are the same request, as long as no method or path holds a newline. */
  lemma HashIsInjective(m: string, p: string, b: string, m': string, p': string, b': string)
    requires NEWLINE !in m && NEWLINE !in p && NEWLINE !in m' && NEWLINE !in p'
    ensures HashRequest(m, p, b) == HashRequest(m', p', b') <==> m == m' && p == p' && b == b'
  {
    if HashRequest(m, p, b) == HashRequest(m', p', b') {
      assert Encode(m, p, b) == m + [NEWLINE] + (p + [NEWLINE] + (b + [NEWLINE]));
      assert Encode(m', p', b') == m' + [NEWLINE] + (p' + [NEWLINE] + (b' + [NEWLINE]));
      FirstLine(m, p + [NEWLINE] + (b + [NEWLINE]), m', p' + [NEWLINE] + (b' + [NEWLINE]));
      FirstLine(p, b + [NEWLINE], p', b' + [NEWLINE]);
      assert (b + [NEWLINE])[..|b|] == b && (b' + [NEWLINE])[..|b'|] == b';
    }
  }

  /** With a newline in a path, two different requests can share a hash. */
  lemma NewlinesCollide(m: string, p: string, q: string, b: string)
    ensures HashRequest(m, p + [NEWLINE] + q, b) == HashRequest(m, p, q + [NEWLINE] + b)
  {
    assert Encode(m, p + [NEWLINE] + q, b) == Encode(m, p, q + [NEWLINE] + b);
  }
}
