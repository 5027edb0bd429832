/** The parameters the image-service form derives from its inputs: the
    service alias, the name and version read off the image URL, and the
    memory and CPU of the new service. */
module ImageParams {
  import opened Common
  import opened Entities

  // ---------------------------------------------------------------------
  // Service alias
  // ---------------------------------------------------------------------

  /** `"gr" + service_id[-6:]`: the last six characters of the id, or the
      whole id when it is shorter. */
  function ServiceAlias(serviceId: string): (alias: string)
    ensures |alias| == 2 + (if |serviceId| < 6 then |serviceId| else 6)
    ensures alias[..2] == "gr" && serviceId == serviceId[..|serviceId| - (|alias| - 2)] + alias[2..]
  {
    "gr" + (if |serviceId| < 6 then serviceId else serviceId[|serviceId| - 6..])
  }

  /** Two ids that end in the same six characters get the same alias. */
  lemma AliasOnlySeesSuffix(a: string, b: string)
    requires |a| >= 6 && |b| >= 6 && a[|a| - 6..] == b[|b| - 6..]
    ensures ServiceAlias(a) == ServiceAlias(b)
  {
  }

  // ---------------------------------------------------------------------
  // Image URL
  // ---------------------------------------------------------------------

  /** `s.index(c)`: the position of the first `c`. */
  function FirstIndex(s: string, c: char): (i: nat)
    requires c in s
    ensures i < |s| && s[i] == c && c !in s[..i]
  {
    if s[0] == c then 0
    else
      assert s == [s[0]] + s[1..];
      1 + FirstIndex(s[1..], c)
  }

  /** The service name and version read off an image URL as written: split
      at the first `:`, the version defaulting to `"lastest"` (sic). */
  function SplitImageUrl(url: string): (r: (string, string))
  {
    if ':' in url then
      var index := FirstIndex(url, ':');
      (url[..index], url[index + 1..])
    else (url, "lastest")
  }

  /** With a `:`, name, `:` and version put back together give the URL and
      the name has no `:`; without one the name is the URL and the version
      is `"lastest"`. */
  lemma SplitImageUrlSpec(url: string)
    ensures var (name, version) := SplitImageUrl(url);
            && (':' in url ==> name + ":" + version == url && ':' !in name)
            && (':' !in url ==> name == url && version == "lastest")
  {
    if ':' in url {
      var index := FirstIndex(url, ':');
      assert url == url[..index] + [':'] + url[index + 1..];
    }
  }

  /** A `c` with no `c` before it is the first one. */
  lemma {:induction false} FirstIndexAt(s: string, c: char, i: nat)
    requires i < |s| && s[i] == c && c !in s[..i]
    ensures FirstIndex(s, c) == i
    decreases i
  {
    if i > 0 {
      assert s[0] == s[..i][0];
      assert s[1..][..i - 1] == s[..i][1..];
      FirstIndexAt(s[1..], c, i - 1);
    }
  }

  /** Of two URLs differing only in what follows their first `:`, both
      give the same name. */
  lemma SplitImageUrlNameStable(name: string, v1: string, v2: string)
    requires ':' !in name
    ensures SplitImageUrl(name + ":" + v1).0 == SplitImageUrl(name + ":" + v2).0 == name
    ensures SplitImageUrl(name + ":" + v1).1 == v1
  {
    var u, w := name + ":" + v1, name + ":" + v2;
    assert u[..|name|] == name && w[..|name|] == name;
    FirstIndexAt(u, ':', |name|);
    FirstIndexAt(w, ':', |name|);
    assert u[|name| + 1..] == v1;
  }

  /** An image on a registry with a port, `host:5000/app:1.0`, is split at
      the port: its name is `host` and its version `5000/app:1.0`. */
  lemma RegistryPortSplit()
    ensures SplitImageUrl("host:5000/app:1.0") == ("host", "5000/app:1.0")
  {
    var url := "host:5000/app:1.0";
    assert url[..4] == "host";
    FirstIndexAt(url, ':', 4);
  }

  /** `s.rindex(c) + 1`, or 0 when there is no `c`: where the last
      path segment starts. */
  function AfterLast(s: string, c: char): (i: nat)
    ensures i <= |s| && c !in s[i..]
    ensures i > 0 ==> s[i - 1] == c
    decreases |s|
  {
    if s == [] then 0
    else if s[|s| - 1] == c then |s|
    else
      var i := AfterLast(s[..|s| - 1], c);
      assert s[i..] == s[..|s| - 1][i..] + [s[|s| - 1]];
      i
  }

  /** The split at the tag separator, the first `:` of the last path
      segment, so that a registry port stays in the name. */
  function SplitImageReference(url: string): (r: (string, string))
  {
    var start := AfterLast(url, '/');
    if ':' in url[start..] then
      var index := start + FirstIndex(url[start..], ':');
      (url[..index], url[index + 1..])
    else (url, "lastest")
  }

  /** A `c` with no `c` after it is the last one. */
  lemma {:induction false} AfterLastAt(s: string, c: char, i: nat)
    requires 0 < i <= |s| && s[i - 1] == c && c !in s[i..]
    ensures AfterLast(s, c) == i
    decreases |s|
  {
    if i < |s| {
      var n := |s| - 1;
      assert s[n] == s[i..][n - i];
      assert s[..n][i..] == s[i..][..n - i];
      AfterLastAt(s[..n], c, i);
    }
  }

  /** Splitting at a `:` and putting back together gives the string. */
  lemma SplitAtColon(s: string, index: nat)
    requires index < |s| && s[index] == ':'
    ensures s[..index] + ":" + s[index + 1..] == s
  {
    assert s == s[..index] + [s[index]] + s[index + 1..];
  }

  /** The corrected split puts back together to the URL, its version holds
      no `/`, and its name has no `:` in the last path segment. */
  lemma SplitImageReferenceSpec(url: string)
    ensures var (name, version) := SplitImageReference(url);
            var start := AfterLast(url, '/');
            && (':' in url[start..] ==> name + ":" + version == url && '/' !in version
                                         && ':' !in name[start..])
            && (':' !in url[start..] ==> name == url && version == "lastest")
  {
    var start := AfterLast(url, '/');
    if ':' in url[start..] {
      SplitAtTag(url, start, FirstIndex(url[start..], ':'));
    }
  }

  /** Splitting at the first `:` after the last `/`. */
  lemma SplitAtTag(url: string, start: nat, j: nat)
    requires start <= |url| && '/' !in url[start..]
    requires j < |url| - start && url[start + j] == ':' && ':' !in url[start..][..j]
    ensures var index := start + j;
            url[..index] + ":" + url[index + 1..] == url && '/' !in url[index + 1..] && ':' !in url[..index][start..]
  {
    var index := start + j;
    SplitAtColon(url, index);
    assert url[index + 1..] == url[start..][j + 1..];
    assert url[..index][start..] == url[start..][..j];
  }

  /** On a URL without a path the corrected split agrees with the split as
      written. */
  lemma SplitImageReferenceAgrees(url: string)
    requires '/' !in url
    ensures SplitImageReference(url) == SplitImageUrl(url)
  {
    assert url[0..] == url;
  }

  /** On the registry-port URL the corrected split keeps the port in the
      name. */
  lemma RegistryPortReference()
    ensures SplitImageReference("host:5000/app:1.0") == ("host:5000/app", "1.0")
  {
    var url := "host:5000/app:1.0";
    assert url[10..] == "app:1.0";
    AfterLastAt(url, '/', 10);
    var tail := url[10..];
    assert tail[..3] == "app";
    FirstIndexAt(tail, ':', 3);
    assert url[..13] == "host:5000/app" && url[14..] == "1.0";
  }

  // ---------------------------------------------------------------------
  // Memory and CPU
  // ---------------------------------------------------------------------

  predicate IsDigit(c: char) { '0' <= c <= '9' }

  function DigitsValue(s: string): (n: nat)
    requires forall k :: 0 <= k < |s| ==> IsDigit(s[k])
    decreases |s|
  {
    if s == [] then 0
    else
      var c := s[|s| - 1];
      assert IsDigit(c);
      assert forall k :: 0 <= k < |s| - 1 ==> s[..|s| - 1][k] == s[k];
      DigitsValue(s[..|s| - 1]) * 10 + (c as int - '0' as int)
  }

  /** `int(text)` on a decimal literal: an optional sign then at least one
      digit; anything else raises `ValueError`. */
  function ParseInt(text: string): (r: Result<int, Exception>)
    ensures r.Failure? <==> var body := if text != [] && text[0] in "+-" then text[1..] else text;
                            body == [] || exists k :: 0 <= k < |body| && !IsDigit(body[k])
    ensures r.Failure? ==> r.error.ValueError?
    ensures r.Success? && (text == [] || text[0] != '-') ==> r.value >= 0
  {
    var negative := text != [] && text[0] == '-';
    var body := if text != [] && text[0] in "+-" then text[1..] else text;
    if body != [] && forall k :: 0 <= k < |body| ==> IsDigit(body[k]) then
      var n: int := DigitsValue(body);
      Success(if negative then -n else n)
    else Failure(ValueError("invalid literal for int() with base 10: '" + text + "'"))
  }

  function DigitChar(d: nat): (c: char)
    requires d < 10
    ensures IsDigit(c) && (c - '0') as nat == d
  {
    ('0' as int + d) as char
  }

  /** The decimal form of a natural number. */
  function ShowNat(n: nat): (s: string)
    ensures s != [] && forall k :: 0 <= k < |s| ==> IsDigit(s[k])
    decreases n
  {
    if n < 10 then [DigitChar(n)] else ShowNat(n / 10) + [DigitChar(n % 10)]
  }

  function ShowInt(n: int): string
  {
    if n < 0 then "-" + ShowNat(-n) else ShowNat(n)
  }

  lemma {:induction false} ShowNatValue(n: nat)
    ensures DigitsValue(ShowNat(n)) == n
    decreases n
  {
    if n >= 10 {
      ShowNatValue(n / 10);
      var s := ShowNat(n);
      assert s[..|s| - 1] == ShowNat(n / 10);
    }
  }

  /** `int(str(n)) == n` for every integer. */
  lemma ParseShowInt(n: int)
    ensures ParseInt(ShowInt(n)) == Success(n)
  {
    if n < 0 {
      ParseShowNegative(n);
    } else {
      ParseShowNat(n);
    }
  }

  lemma ParseShowNat(n: nat)
    ensures ParseInt(ShowNat(n)) == Success(n)
  {
    ShowNatValue(n);
    var s := ShowNat(n);
    assert s[0] !in "+-" by {
      assert IsDigit(s[0]);
    }
  }

  lemma ParseShowNegative(n: int)
    requires n < 0
    ensures ParseInt("-" + ShowNat(-n)) == Success(n)
  {
    ShowNatValue(-n);
    var s := "-" + ShowNat(-n);
    assert s[0] == '-' && s[1..] == ShowNat(-n);
  }

  /** Python's `int(a / 128)`: the quotient truncated toward zero. */
  function TruncDiv128(a: int): (q: int)
    ensures a >= 0 ==> q >= 0 && 128 * q <= a < 128 * q + 128
    ensures a < 0 ==> q <= 0 && 128 * q - 128 < a <= 128 * q
  {
    if a >= 0 then a / 128 else -((-a) / 128)
  }

  /** `int(cm / 128) * 20` */
  function CpuFor(memory: int): (cpu: int)
    ensures cpu % 20 == 0
  {
    TruncDiv128(memory) * 20
  }

  /** Truncation makes the rule symmetric about zero, where a floor would
      not be: `-200` gives `-20`, not `-40`. */
  lemma CpuSymmetric(memory: int)
    ensures CpuFor(-memory) == -CpuFor(memory)
    ensures CpuFor(-200) == -20
  {
  }

  /** For a non-negative memory the CPU grows with the memory, 20 per full
      128. */
  lemma CpuMonotone(m1: int, m2: int)
    requires 0 <= m1 <= m2
    ensures 0 <= CpuFor(m1) <= CpuFor(m2)
    ensures CpuFor(m2) - CpuFor(m1) <= 20 * ((m2 - m1) / 128 + 1)
  {
    var q1, q2 := TruncDiv128(m1), TruncDiv128(m2);
    assert q2 - q1 <= (m2 - m1) / 128 + 1 by {
      var d := (m2 - m1) / 128;
      assert m2 - m1 < 128 * d + 128;
      assert 128 * (q2 - q1) < m2 - m1 + 128;
    }
  }

  /** The memory form field: not posted, or posted with some text. */
  datatype MemoryField = Absent | Posted(text: string)

  datatype Resources = Resources(minMemory: int, minCpu: int)

  /** Memory and CPU of the new service: 128 and 20 when the field is
      absent or empty, otherwise the posted integer and its CPU. An absent
      field yields the integer 128, which goes through the same rule. */
  function MemoryToResources(field: MemoryField): (r: Result<Resources, Exception>)
    ensures field == Absent || field == Posted("") ==> r == Success(Resources(128, 20))
    ensures field.Posted? && field.text != "" ==>
              && (r.Success? <==> ParseInt(field.text).Success?)
              && (r.Success? ==> r.value.minMemory == ParseInt(field.text).value)
    ensures r.Success? ==> r.value.minCpu == CpuFor(r.value.minMemory)
    ensures r.Failure? ==> r.error.ValueError?
  {
    match field
    case Absent => Success(Resources(128, CpuFor(128)))
    case Posted(text) =>
      if text == "" then Success(Resources(128, 20))
      else
        match ParseInt(text)
        case Success(cm) => Success(Resources(cm, CpuFor(cm)))
        case Failure(e) => Failure(e)
  }

  /** Posting any integer's decimal form gives that memory and its CPU. */
  lemma PostedIntegerResources(n: int)
    ensures MemoryToResources(Posted(ShowInt(n))) == Success(Resources(n, CpuFor(n)))
  {
    ParseShowInt(n);
    assert ShowInt(n) != "" by {
      if n < 0 { assert |ShowInt(n)| == 1 + |ShowNat(-n)|; }
    }
  }
}
