/** Text forms of identifiers: UUIDs, and the names derived from them. */
module Names {
  import opened Common

  predicate IsHex(c: char) {
    '0' <= c <= '9' || 'a' <= c <= 'f'
  }

  /** The lower-case UUID pattern: version 1 to 8, variant 8, 9, a or b. */
  predicate IsUuid(s: string) {
    && |s| == 36
    && s[8] == '-' && s[13] == '-' && s[18] == '-' && s[23] == '-'
    && (forall i | 0 <= i < 36 :: i == 8 || i == 13 || i == 18 || i == 23 || IsHex(s[i]))
    && '1' <= s[14] <= '8'
    && (s[19] == '8' || s[19] == '9' || s[19] == 'a' || s[19] == 'b')
  }

  /** ValidateDeploymentID. */
  predicate ValidDeploymentId(s: string) {
    IsUuid(Lower(s))
  }

  predicate IsLowerLetter(c: char) {
    'a' <= c <= 'z'
  }

  predicate IsDigit(c: char) {
    '0' <= c <= '9'
  }

  /** ValidateDatabaseIdentifier: a lower-case letter, then up to 62 letters, digits or underscores. */
  predicate IsDatabaseIdentifier(s: string) {
    && 1 <= |s| <= 63
    && IsLowerLetter(s[0])
    && forall i | 0 < i < |s| :: IsLowerLetter(s[i]) || IsDigit(s[i]) || s[i] == '_'
  }

  /** strings.ReplaceAll(s, "-", ""). */
  function Squeeze(s: string): (t: string)
    ensures '-' !in t
  {
    if s == [] then []
    else if s[0] == '-' then Squeeze(s[1..])
    else [s[0]] + Squeeze(s[1..])
  }

  lemma {:induction false} SqueezeParts(s: string, t: string)
    ensures Squeeze(s + t) == Squeeze(s) + Squeeze(t)
  {
    if s == [] {
      assert s + t == t;
    } else {
      SqueezeParts(s[1..], t);
      assert (s + t)[1..] == s[1..] + t && (s + t)[0] == s[0];
      var a, b := Squeeze(s[1..]), Squeeze(t);
      assert Squeeze(s + t) == if s[0] == '-' then a + b else [s[0]] + (a + b);
      assert [s[0]] + (a + b) == ([s[0]] + a) + b;
    }
  }

  lemma {:induction false} SqueezeNothing(s: string)
    requires '-' !in s
    ensures Squeeze(s) == s
  {
    if s != [] {
      SqueezeNothing(s[1..]);
    }
  }

  /** A UUID's thirty-two digits. */
  function Digits(s: string): string
    requires IsUuid(s)
  {
    s[..8] + s[9..13] + s[14..18] + s[19..23] + s[24..]
  }

  lemma SqueezeGroup(group: string, rest: string)
    requires '-' !in group
    ensures Squeeze(group + ("-" + rest)) == group + Squeeze(rest)
  {
    SqueezeParts(group, "-" + rest);
    SqueezeNothing(group);
    assert ("-" + rest)[1..] == rest;
  }

  lemma SqueezeFrom(s: string, i: nat, j: nat)
    requires i <= j < |s| && s[j] == '-' && '-' !in s[i..j]
    ensures Squeeze(s[i..]) == s[i..j] + Squeeze(s[j + 1..])
  {
    assert s[i..] == s[i..j] + ("-" + s[j + 1..]);
    SqueezeGroup(s[i..j], s[j + 1..]);
  }

  lemma NoHyphens(s: string, i: nat, j: nat)
    requires i <= j <= |s| && forall k | i <= k < j :: s[k] != '-'
    ensures '-' !in s[i..j]
  {
  }

  lemma Nested(a: string, b: string, c: string, d: string, e: string)
    ensures a + (b + (c + (d + e))) == a + b + c + d + e
  {
  }

  lemma SqueezedUuid(s: string)
    requires IsUuid(s)
    ensures Squeeze(s) == Digits(s) && |Digits(s)| == 32
  {
    assert |s| == 36 && s[8] == '-' && s[13] == '-' && s[18] == '-' && s[23] == '-';
    assert forall k | 0 <= k < 36 && k != 8 && k != 13 && k != 18 && k != 23 :: s[k] != '-';
    hide Squeeze, IsUuid;
    NoHyphens(s, 0, 8);
    NoHyphens(s, 9, 13);
    NoHyphens(s, 14, 18);
    NoHyphens(s, 19, 23);
    NoHyphens(s, 24, 36);
    SqueezeFrom(s, 0, 8);
    SqueezeFrom(s, 9, 13);
    SqueezeFrom(s, 14, 18);
    SqueezeFrom(s, 19, 23);
    SqueezeNothing(s[24..]);
    Nested(s[0..8], s[9..13], s[14..18], s[19..23], s[24..]);
    assert s[0..] == s && s[0..8] == s[..8] && s[24..36] == s[24..];
  }

  lemma DigitsInjective(s: string, t: string)
    requires IsUuid(s) && IsUuid(t) && Digits(s) == Digits(t)
    ensures s == t
  {
    var x := Digits(s);
    assert s[..8] == x[..8] == t[..8];
    assert s[9..13] == x[8..12] == t[9..13];
    assert s[14..18] == x[12..16] == t[14..18];
    assert s[19..23] == x[16..20] == t[19..23];
    assert s[24..] == x[20..] == t[24..];
    assert s == s[..8] + "-" + s[9..13] + "-" + s[14..18] + "-" + s[19..23] + "-" + s[24..];
    assert t == t[..8] + "-" + t[9..13] + "-" + t[14..18] + "-" + t[19..23] + "-" + t[24..];
  }

  datatype Networks = Networks(frontend: string, backend: string)

  const FRONTEND := "centralcloud-fe-"
  const BACKEND := "centralcloud-be-"

  function NetworkNames(id: string): Option<Networks> {
    if !ValidDeploymentId(id) then None
    else
      var suffix := Squeeze(Lower(id));
      Some(Networks(FRONTEND + suffix, BACKEND + suffix))
  }

  /** The Traefik router and service id. */
  function RouterId(id: string): string {
    "cc" + Squeeze(id)
  }

  lemma SuffixInjective(p: string, s: string, t: string)
    requires p + s == p + t
    ensures s == t
  {
    assert (p + s)[|p|..] == s && (p + t)[|p|..] == t;
  }

  /** Network names tell deployments apart, whatever the case their UUIDs are written in, and no frontend network
      is a backend network. */
  lemma NetworkNamesInjective(id: string, other: string)
    requires ValidDeploymentId(id) && ValidDeploymentId(other)
    ensures NetworkNames(id).Some? && NetworkNames(other).Some?
    ensures var n, m := NetworkNames(id).value, NetworkNames(other).value;
      && n.frontend != m.backend
      && (n.frontend == m.frontend <==> Lower(id) == Lower(other))
      && (n.backend == m.backend <==> Lower(id) == Lower(other))
  {
    var s, t := Squeeze(Lower(id)), Squeeze(Lower(other));
    assert (FRONTEND + s)[13] == 'f' && (BACKEND + t)[13] == 'b';
    if FRONTEND + s == FRONTEND + t || BACKEND + s == BACKEND + t {
      if FRONTEND + s == FRONTEND + t {
        SuffixInjective(FRONTEND, s, t);
      } else {
        SuffixInjective(BACKEND, s, t);
      }
      SqueezedUuid(Lower(id));
      SqueezedUuid(Lower(other));
      DigitsInjective(Lower(id), Lower(other));
    }
  }

  /** Router ids tell deployments apart, and are no network names. */
  lemma RouterIdsInjective(id: string, other: string)
    requires IsUuid(id) && IsUuid(other)
    ensures RouterId(id) == RouterId(other) ==> id == other
    ensures forall n :: RouterId(id) != FRONTEND + n && RouterId(id) != BACKEND + n
  {
    if RouterId(id) == RouterId(other) {
      SuffixInjective("cc", Squeeze(id), Squeeze(other));
      SqueezedUuid(id);
      SqueezedUuid(other);
      DigitsInjective(id, other);
    }
    assert RouterId(id)[1] == 'c';
    forall n ensures RouterId(id) != FRONTEND + n && RouterId(id) != BACKEND + n {
      assert (FRONTEND + n)[1] == 'e' && (BACKEND + n)[1] == 'e';
    }
  }
}
