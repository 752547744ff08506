/**
 * The destination key of a copied object: `changeModelName` splits a path on
 * '/', overwrites the first segment with the model id and joins the segments
 * back with '/'. `Split` and `Join` follow JavaScript's `String.split('/')`
 * and `Array.join('/')`: splitting never yields an empty list, and the empty
 * string splits into one empty segment.
 */
module ModelPaths {

  /** `parts.join('/')`. */
  function Join(parts: seq<string>): (s: string)
    ensures |parts| >= 1 ==> |parts[0]| <= |s| && s[..|parts[0]|] == parts[0]
  {
    if |parts| == 0 then ""
    else if |parts| == 1 then parts[0]
    else parts[0] + "/" + Join(parts[1..])
  }

  predicate SlashFree(parts: seq<string>)
  {
    forall i :: 0 <= i < |parts| ==> '/' !in parts[i]
  }

  /** `s.split('/')`: the segments between the slashes, in order. */
  function Split(s: string): (parts: seq<string>)
    ensures |parts| >= 1
  {
    if s == [] then [[]]
    else
      var rest := Split(s[1..]);
      if s[0] == '/' then [[]] + rest else [[s[0]] + rest[0]] + rest[1..]
  }

  /** The segments carry no '/', and joining them gives back `s`. */
  lemma {:induction false} SplitSound(s: string)
    ensures SlashFree(Split(s))
    ensures Join(Split(s)) == s
  {
    if s != [] {
      SplitSound(s[1..]);
      assert s == [s[0]] + s[1..];
      if s[0] == '/' {
        SplitSoundSlash(s[1..]);
      } else {
        SplitSoundChar(s[0], s[1..]);
      }
    }
  }

  /** `SplitSound`'s step for a leading '/'. */
  lemma SplitSoundSlash(s: string)
    requires SlashFree(Split(s)) && Join(Split(s)) == s
    ensures SlashFree(Split("/" + s)) && Join(Split("/" + s)) == "/" + s
  {
    var rest := Split(s);
    var parts := Split("/" + s);
    SplitSlash(s);
    assert SlashFree(parts) by {
      forall i | 1 <= i < |parts| ensures '/' !in parts[i] { assert parts[i] == rest[i - 1]; }
    }
    JoinCons([], rest);
  }

  /** `SplitSound`'s step for a leading character other than '/'. */
  lemma SplitSoundChar(c: char, s: string)
    requires c != '/'
    requires SlashFree(Split(s)) && Join(Split(s)) == s
    ensures SlashFree(Split([c] + s)) && Join(Split([c] + s)) == [c] + s
  {
    var rest := Split(s);
    var parts := Split([c] + s);
    SplitChar(c, s);
    assert SlashFree(parts) by {
      forall i | 0 <= i < |parts| ensures '/' !in parts[i] {
        if i > 0 { assert parts[i] == rest[i]; } else { assert '/' !in rest[0]; }
      }
    }
    assert rest == [rest[0]] + rest[1..];
    JoinCons(rest[0], rest[1..]);
    JoinCons(parts[0], rest[1..]);
  }

  /** The first segment is `Join`'s prefix, whatever follows it. */
  lemma JoinCons(head: string, tail: seq<string>)
    ensures Join([head] + tail) == if tail == [] then head else head + "/" + Join(tail)
  {
    assert ([head] + tail)[1..] == tail;
  }

  /**
   * `Split` inverts `Join` on slash-free segments, so `Split(s)` is the only
   * non-empty list of slash-free segments whose join is `s`.
   */
  lemma {:induction false} SplitJoin(parts: seq<string>)
    requires |parts| >= 1 && SlashFree(parts)
    ensures Split(Join(parts)) == parts
    decreases |parts|, |parts[0]|
  {
    var h, tail := parts[0], parts[1..];
    assert parts == [h] + tail;
    if h == [] {
      if tail != [] {
        assert SlashFree(tail) by {
          forall i | 0 <= i < |tail| ensures '/' !in tail[i] { assert tail[i] == parts[i + 1]; }
        }
        SplitJoin(tail);
        JoinCons(h, tail);
        SplitSlash(Join(tail));
      }
    } else {
      var shorter := [h[1..]] + tail;
      assert shorter[1..] == tail;
      assert SlashFree(shorter) by {
        forall i | 0 <= i < |shorter| ensures '/' !in shorter[i] {
          if i == 0 { assert h == [h[0]] + h[1..]; } else { assert shorter[i] == parts[i]; }
        }
      }
      SplitJoin(shorter);
      assert h[0] != '/' by { assert h[0] in h; }
      JoinHead(h, tail);
      SplitChar(h[0], Join(shorter));
      assert h == [h[0]] + h[1..];
    }
  }

  /** A leading '/' splits off an empty first segment. */
  lemma SplitSlash(s: string)
    ensures Split("/" + s) == [[]] + Split(s)
  {
    assert ("/" + s)[1..] == s;
  }

  /** Any other leading character starts the first segment. */
  lemma SplitChar(c: char, s: string)
    requires c != '/'
    ensures Split([c] + s) == [[c] + Split(s)[0]] + Split(s)[1..]
  {
    assert ([c] + s)[1..] == s;
  }

  /** Joining after moving the first character of the first segment out front. */
  lemma JoinHead(h: string, tail: seq<string>)
    requires h != []
    ensures Join([h] + tail) == [h[0]] + Join([h[1..]] + tail)
  {
    JoinCons(h, tail);
    JoinCons(h[1..], tail);
    assert h == [h[0]] + h[1..];
  }

  /**
   * `changeModelName(oldName, newName)`: `oldName` with its first
   * '/'-segment replaced by `newName`. The result always starts with
   * `newName`.
   */
  function ChangeModelName(oldName: string, newName: string): (r: string)
    ensures |newName| <= |r| && r[..|newName|] == newName
  {
    var parts := Split(oldName);
    var renamed := parts[0 := newName];
    assert renamed == [newName] + parts[1..];
    JoinCons(newName, parts[1..]);
    Join(renamed)
  }

  /**
   * When `newName` has no '/', the rewritten path's segments are `newName`
   * followed by the old path's later segments, unchanged and in order.
   */
  lemma ChangeModelNameSegments(oldName: string, newName: string)
    requires '/' !in newName
    ensures Split(ChangeModelName(oldName, newName)) == [newName] + Split(oldName)[1..]
  {
    var parts := Split(oldName);
    SplitSound(oldName);
    var renamed := [newName] + parts[1..];
    assert parts[0 := newName] == renamed;
    assert SlashFree(renamed) by {
      forall i | 0 <= i < |renamed| ensures '/' !in renamed[i] {
        if i > 0 { assert renamed[i] == parts[i]; }
      }
    }
    SplitJoin(renamed);
  }

  /** A path without '/' (the empty path included) becomes `newName` itself. */
  lemma ChangeModelNameNoSlash(oldName: string, newName: string)
    requires '/' !in oldName
    ensures ChangeModelName(oldName, newName) == newName
  {
    SplitJoin([oldName]);
    assert Join([oldName]) == oldName;
  }

  /**
   * When `oldName` has a '/', the first of them at `k`, the result is
   * `newName` followed by `oldName` from that slash on.
   */
  lemma ChangeModelNameSuffix(oldName: string, newName: string, k: nat)
    requires k < |oldName| && oldName[k] == '/'
    requires forall j :: 0 <= j < k ==> oldName[j] != '/'
    ensures ChangeModelName(oldName, newName) == newName + oldName[k..]
  {
    var parts := Split(oldName);
    SplitAtFirstSlash(oldName, k);
    assert parts[0 := newName] == [newName] + parts[1..];
    JoinCons(newName, parts[1..]);
  }

  /** From the first '/' on, a path is that slash and the join of its later segments. */
  lemma SplitAtFirstSlash(s: string, k: nat)
    requires k < |s| && s[k] == '/'
    requires forall j :: 0 <= j < k ==> s[j] != '/'
    ensures |Split(s)| >= 2
    ensures s[k..] == "/" + Join(Split(s)[1..])
  {
    var parts := Split(s);
    SplitSound(s);
    assert '/' !in parts[0];
    JoinCons(parts[0], parts[1..]);
    assert parts == [parts[0]] + parts[1..];
    FirstSlashAt(s, parts[0], Join(parts[1..]), k);
  }

  /** In `head + "/" + rest` with a slash-free `head`, the first '/' is the one after `head`. */
  lemma FirstSlashAt(s: string, head: string, rest: string, k: nat)
    requires s == head + "/" + rest && '/' !in head
    requires k < |s| && s[k] == '/'
    requires forall j :: 0 <= j < k ==> s[j] != '/'
    ensures s[k..] == "/" + rest
  {
    assert s[|head|] == '/';
  }

  /** With a slash-free `newName`, renaming twice is renaming once. */
  lemma ChangeModelNameIdempotent(oldName: string, newName: string)
    requires '/' !in newName
    ensures ChangeModelName(ChangeModelName(oldName, newName), newName) == ChangeModelName(oldName, newName)
  {
    var once := ChangeModelName(oldName, newName);
    ChangeModelNameSegments(oldName, newName);
    ChangeModelNameSegments(once, newName);
    var tail := Split(oldName)[1..];
    assert Split(once)[1..] == tail;
    assert Split(once)[0 := newName] == Split(once);
  }

  /** The repository's own example: "model/path" renamed to "newName". */
  lemma ChangeModelNameExample(oldName: string, newName: string)
    requires oldName == "model/path" && newName == "newName"
    ensures ChangeModelName(oldName, newName) == "newName/path"
  {
    ChangeModelNameSuffix(oldName, newName, 5);
  }
}
