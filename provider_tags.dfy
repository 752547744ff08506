/**
 * The case-insensitive tag both provider factories switch on:
 * `provider.toLowerCase()` compared with "nfs" and "s3".
 */
module ProviderTags {
  import opened Wrappers

  datatype ProviderKind = NFS | S3

  /** Lower-casing of one character (ASCII letters only). */
  function LowerChar(c: char): char
  {
    if 'A' <= c <= 'Z' then (c as int + 32) as char else c
  }

  /** `s.toLowerCase()`, character by character. */
  function Lower(s: string): (r: string)
    ensures |r| == |s|
    ensures forall i :: 0 <= i < |s| ==> r[i] == LowerChar(s[i])
  {
    seq(|s|, i requires 0 <= i < |s| => LowerChar(s[i]))
  }

  /** The `switch (provider.toLowerCase())` cases; `None` is the default case. */
  function ParseKind(provider: string): (r: Option<ProviderKind>)
    ensures r == Some(NFS) ==> |provider| == 3
    ensures r == Some(S3) ==> |provider| == 2
    ensures r.None? <==> Lower(provider) != "nfs" && Lower(provider) != "s3"
  {
    var tag := Lower(provider);
    if tag == "nfs" then Some(NFS)
    else if tag == "s3" then Some(S3)
    else None
  }

  /** Exactly the three-letter spellings of "nfs", in any casing, select NFS. */
  lemma ParseKindNfs(provider: string)
    ensures ParseKind(provider) == Some(NFS) <==>
      |provider| == 3 && provider[0] in "nN" && provider[1] in "fF" && provider[2] in "sS"
  {
    if |provider| == 3 {
      var t := Lower(provider);
      assert t[0] == LowerChar(provider[0]) && t[1] == LowerChar(provider[1]) && t[2] == LowerChar(provider[2]);
      assert t == "nfs" <==> t[0] == 'n' && t[1] == 'f' && t[2] == 's';
    }
  }

  /** Exactly "s3" and "S3" select S3. */
  lemma ParseKindS3(provider: string)
    ensures ParseKind(provider) == Some(S3) <==>
      |provider| == 2 && provider[0] in "sS" && provider[1] == '3'
  {
    if |provider| == 2 {
      var t := Lower(provider);
      assert t[0] == LowerChar(provider[0]) && t[1] == LowerChar(provider[1]);
      assert t == "s3" <==> t[0] == 's' && t[1] == '3';
    }
  }

  /** The decision depends on the lower-cased string only. */
  lemma ParseKindLower(provider: string)
    ensures ParseKind(Lower(provider)) == ParseKind(provider)
  {
    assert Lower(Lower(provider)) == Lower(provider);
  }

  /** `haystack` contains `needle` somewhere. */
  predicate Contains(haystack: string, needle: string)
  {
    exists i, j :: 0 <= i <= j <= |haystack| && haystack[i..j] == needle
  }

  /** The error text both factories throw for an unknown tag. */
  function InvalidProviderMessage(provider: string): (m: string)
    ensures Contains(m, provider) && Contains(m, "\"nfs\"") && Contains(m, "\"s3\"")
  {
    var prefix := "Invalid config provider received: ";
    var suffix := " - available values:  \"nfs\" or \"s3\"";
    var head := prefix + provider;
    var m := head + suffix;
    SliceOfAppend(prefix, provider, 0, |provider|);
    SliceOfAppend(head, suffix, 22, 27);
    SliceOfAppend(head, suffix, 31, 35);
    assert suffix[22..27] == "\"nfs\"" && suffix[31..35] == "\"s3\"";
    assert m[..|head|] == head;
    assert m[|prefix|..|prefix| + |provider|] == head[|prefix|..|prefix| + |provider|];
    m
  }

  /** A slice of the second part of `a + b` is that slice of `b`. */
  lemma SliceOfAppend(a: string, b: string, i: nat, j: nat)
    requires i <= j <= |b|
    ensures (a + b)[|a| + i..|a| + j] == b[i..j]
  {
    assert forall t :: 0 <= t < j - i ==> (a + b)[|a| + i..|a| + j][t] == b[i..j][t];
  }
}
