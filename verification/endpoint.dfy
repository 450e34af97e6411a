/** The upstream request URL: the configured node IDs joined with commas
    into the `nodeIds` query parameter, followed by `&status=active`. */
module Endpoint {
  import opened Results

  const Base: string := "https://api.avascan.info/v2/network/mainnet/staking/validations?nodeIds="
  const StatusFilter: string := "&status=active"

  /** `",".join(ids)`. */
  function Join(ids: seq<string>): string {
    if |ids| == 0 then ""
    else if |ids| == 1 then ids[0]
    else ids[0] + "," + Join(ids[1..])
  }

  /** `s.split(",")`: always at least one part, and no part holds a comma. */
  function Split(s: string): (parts: seq<string>)
    ensures |parts| >= 1
    ensures forall i :: 0 <= i < |parts| ==> ',' !in parts[i]
  {
    if s == [] then [""]
    else
      var rest := Split(s[1..]);
      if s[0] == ',' then [""] + rest
      else [[s[0]] + rest[0]] + rest[1..]
  }

  /** The request URL built from a list of node IDs. */
  function Url(ids: seq<string>): string {
    Base + Join(ids) + StatusFilter
  }

  /** The text of `s` before the first `c`, or all of `s`. */
  function Before(s: string, c: char): (p: string)
    ensures |p| <= |s| && p == s[..|p|]
    ensures c !in p
    ensures |p| < |s| ==> s[|p|] == c
  {
    if s == [] || s[0] == c then [] else [s[0]] + Before(s[1..], c)
  }

  /** The raw value of the `nodeIds` query parameter of a URL that starts
      with `Base`: everything up to the next `&`. */
  function NodeIdsParam(url: string): Option<string> {
    if |Base| <= |url| && url[..|Base|] == Base then Some(Before(url[|Base|..], '&'))
    else None
  }

  ghost predicate NoneContains(ids: seq<string>, c: char) {
    forall i :: 0 <= i < |ids| ==> c !in ids[i]
  }

  lemma {:induction false} SplitWithoutComma(a: string)
    requires ',' !in a
    ensures Split(a) == [a]
  {
    if a != [] {
      assert a[0] in a;
      SplitWithoutComma(a[1..]);
      assert [a[0]] + a[1..] == a;
    }
  }

  lemma {:induction false} SplitAfterFirst(a: string, rest: string)
    requires ',' !in a
    ensures Split(a + "," + rest) == [a] + Split(rest)
  {
    var s := a + "," + rest;
    if a == [] {
      assert s[1..] == rest;
    } else {
      assert s[1..] == a[1..] + "," + rest;
      SplitAfterFirst(a[1..], rest);
      assert [a[0]] + a[1..] == a;
    }
  }

  /** Splitting the joined list gives the list back, provided it is
      non-empty (`",".join([])` is `""`, which splits to `[""]`) and no ID
      holds a comma. */
  lemma {:induction false} SplitJoin(ids: seq<string>)
    requires |ids| > 0
    requires NoneContains(ids, ',')
    ensures Split(Join(ids)) == ids
  {
    if |ids| == 1 {
      SplitWithoutComma(ids[0]);
    } else {
      SplitJoin(ids[1..]);
      SplitAfterFirst(ids[0], Join(ids[1..]));
      assert [ids[0]] + ids[1..] == ids;
    }
  }

  /** Joining the parts of any string gives the string back. */
  lemma {:induction false} JoinSplit(s: string)
    ensures Join(Split(s)) == s
  {
    if s != [] {
      var rest := Split(s[1..]);
      JoinSplit(s[1..]);
      if s[0] == ',' {
        assert ([""] + rest)[1..] == rest;
      } else {
        var parts := [[s[0]] + rest[0]] + rest[1..];
        if |rest| > 1 {
          assert parts[1..] == rest[1..];
        }
      }
    }
  }

  lemma {:induction false} JoinAvoids(ids: seq<string>, c: char)
    requires c != ','
    requires NoneContains(ids, c)
    ensures c !in Join(ids)
  {
    if |ids| > 1 {
      JoinAvoids(ids[1..], c);
    }
  }

  lemma {:induction false} BeforePrefix(a: string, b: string, c: char)
    requires c !in a
    requires |b| > 0 && b[0] == c
    ensures Before(a + b, c) == a
  {
    if a != [] {
      assert (a + b)[1..] == a[1..] + b;
      BeforePrefix(a[1..], b, c);
    }
  }

  /** A node ID that holds neither a comma nor an ampersand. */
  predicate PlainId(id: string) {
    forall j :: 0 <= j < |id| ==> id[j] != ',' && id[j] != '&'
  }

  /** The `nodeIds` parameter of the request URL splits back into exactly
      the configured IDs, and the URL ends with the active-status filter. */
  lemma UrlListsIds(ids: seq<string>)
    requires |ids| > 0
    requires forall i :: 0 <= i < |ids| ==> PlainId(ids[i])
    ensures NodeIdsParam(Url(ids)) == Some(Join(ids))
    ensures Split(NodeIdsParam(Url(ids)).value) == ids
    ensures Url(ids)[|Url(ids)| - |StatusFilter|..] == StatusFilter
  {
    var url := Url(ids);
    assert NoneContains(ids, ',') && NoneContains(ids, '&') by {
      forall i, c | 0 <= i < |ids| && (c == ',' || c == '&')
        ensures c !in ids[i]
      {
        assert PlainId(ids[i]);
      }
    }
    assert url[..|Base|] == Base;
    assert url[|Base|..] == Join(ids) + StatusFilter;
    JoinAvoids(ids, '&');
    BeforePrefix(Join(ids), StatusFilter, '&');
    SplitJoin(ids);
  }
}
