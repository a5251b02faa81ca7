/** Object identity: the metadata fields the components key on, and the string
    keys they build from them (pkg/crd/key.go). */
module Keys {
  datatype Option<+T> = None | Some(value: T)

  /** The identifying part of a Kubernetes ObjectMeta. */
  datatype Meta = Meta(name: string, namespace: string, uid: string, resourceVersion: string)

  function CacheKey(m: Meta): string {
    m.uid + "_" + m.resourceVersion
  }

  /** A separator that occurs in neither first part splits the joined string
      in only one way. */
  lemma JoinInjective(a: string, b: string, c: string, d: string, sep: char)
    requires sep !in a && sep !in c
    requires a + [sep] + b == c + [sep] + d
    ensures a == c && b == d
  {
    var s := a + [sep] + b;
    assert s[|a|] == sep && s[|c|] == sep;
    assert s == c + [sep] + d;
    assert forall i :: 0 <= i < |a| ==> s[i] != sep;
    assert forall i :: 0 <= i < |c| ==> s[i] != sep;
    assert a == s[..|a|] && c == s[..|c|];
    assert b == s[|a| + 1..] && d == s[|c| + 1..];
  }

  /** Nor does one that occurs in neither last part. */
  lemma JoinInjectiveLast(a: string, b: string, c: string, d: string, sep: char)
    requires sep !in b && sep !in d
    requires a + [sep] + b == c + [sep] + d
    ensures a == c && b == d
  {
    var s := a + [sep] + b;
    assert s[|a|] == sep && s[|c|] == sep;
    assert forall i :: |a| < i < |s| ==> s[i] == b[i - |a| - 1];
    assert forall i :: |c| < i < |s| ==> s[i] == d[i - |c| - 1];
    assert |a| == |c|;
    assert a == s[..|a|] && c == s[..|c|];
    assert b == s[|a| + 1..] && d == s[|c| + 1..];
  }

  /** CacheKey identifies the contents of an object: equal keys mean equal UID
      and equal resource version, and nothing else, as long as no UID holds
      the separator. */
  lemma CacheKeyIdentifies(a: Meta, b: Meta)
    requires '_' !in a.uid && '_' !in b.uid
    ensures CacheKey(a) == CacheKey(b) <==> a.uid == b.uid && a.resourceVersion == b.resourceVersion
  {
    if CacheKey(a) == CacheKey(b) {
      JoinInjective(a.uid, a.resourceVersion, b.uid, b.resourceVersion, '_');
    }
  }

  /** Without that condition two different objects can share a key. */
  lemma CacheKeyCollides()
    ensures exists a: Meta, b: Meta :: CacheKey(a) == CacheKey(b) && a.uid != b.uid
  {
    var a, b := Meta("f", "ns", "u", "1_2"), Meta("f", "ns", "u_1", "2");
    assert CacheKey(a) == "u_1_2" == CacheKey(b);
  }
}
