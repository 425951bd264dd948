/**
 * The duplicate guard of src/background.ts and src/background.js: the set of
 * recently submitted job URLs, in insertion order, holding at most
 * `MAX_RECENT_JOBS` of them.
 */
module RecentJobs {

  /** `STORAGE.MAX_RECENT_JOBS` of src/constants.ts, `MAX_RECENT_JOBS` of src/background.js. */
  const MaxRecentJobs := 50

  predicate Distinct(s: seq<string>) {
    forall i, j | 0 <= i < j < |s| :: s[i] != s[j]
  }

  /** What one `addToRecentlySubmitted(url)` makes of the set's contents, in insertion order. */
  function Inserted(urls: seq<string>, url: string): seq<string> {
    var added := if url in urls then urls else urls + [url];
    if |added| > MaxRecentJobs then added[1..] else added
  }

  /** The URL just added is in the set, and the set never grows past its capacity or repeats a URL. */
  lemma InsertedKeepsBound(urls: seq<string>, url: string)
    requires Distinct(urls) && |urls| <= MaxRecentJobs
    ensures url in Inserted(urls, url)
    ensures |Inserted(urls, url)| <= MaxRecentJobs
    ensures Distinct(Inserted(urls, url))
  {
    var added := if url in urls then urls else urls + [url];
    assert added[|added| - 1] == url || url in urls;
  }

  /** Re-adding a URL already present changes neither the contents nor their order. */
  lemma ReinsertIsNoChange(urls: seq<string>, url: string)
    requires |urls| <= MaxRecentJobs && url in urls
    ensures Inserted(urls, url) == urls
  {
  }

  /** A new URL joins a full set by evicting exactly the oldest entry; the rest keep their order. */
  lemma FullSetEvictsOldest(urls: seq<string>, url: string)
    requires |urls| == MaxRecentJobs && url !in urls
    ensures Inserted(urls, url) == urls[1..] + [url]
  {
  }

  /** Below capacity a new URL is appended and nothing is evicted. */
  lemma RoomyInsertAppends(urls: seq<string>, url: string)
    requires |urls| < MaxRecentJobs && url !in urls
    ensures Inserted(urls, url) == urls + [url]
  {
  }

  /** The URLs a run of insertions leaves, starting from `urls`. */
  function InsertedAll(urls: seq<string>, added: seq<string>): seq<string>
    decreases |added|
  {
    if added == [] then urls else InsertedAll(Inserted(urls, added[0]), added[1..])
  }

  /** The newest `MaxRecentJobs` entries of `s`. */
  function Newest(s: seq<string>): (r: seq<string>)
    ensures |r| <= MaxRecentJobs
  {
    if |s| <= MaxRecentJobs then s else s[|s| - MaxRecentJobs..]
  }

  lemma InsertedIsNewest(urls: seq<string>, u: string)
    requires |urls| <= MaxRecentJobs && u !in urls
    ensures Inserted(urls, u) == Newest(urls + [u])
  {
  }

  /** Keeping the newest entries before appending more keeps the same newest entries. */
  lemma NewestOfNewest(a: seq<string>, b: seq<string>)
    ensures Newest(Newest(a) + b) == Newest(a + b)
  {
    if |a| > MaxRecentJobs {
      var w := Newest(a);
      assert forall k | 0 <= k < |w + b| :: (w + b)[k] == (a + b)[k + |a| - MaxRecentJobs];
      assert Newest(w + b) == (w + b)[|w + b| - MaxRecentJobs..];
      assert Newest(a + b) == (a + b)[|a + b| - MaxRecentJobs..];
    }
  }

  /**
   * After inserting distinct new URLs the set holds the newest
   * `MaxRecentJobs` of the old entries followed by the new ones, oldest first.
   */
  lemma {:induction false} KeepsLastInserted(urls: seq<string>, added: seq<string>)
    requires Distinct(urls) && |urls| <= MaxRecentJobs
    requires Distinct(added) && forall u | u in added :: u !in urls
    ensures InsertedAll(urls, added) == Newest(urls + added)
    decreases |added|
  {
    if added == [] {
      assert urls + added == urls;
    } else {
      var u, rest := added[0], added[1..];
      var next := Inserted(urls, u);
      InsertedKeepsBound(urls, u);
      StillFresh(urls, added);
      assert urls + [u] + rest == urls + added;
      calc {
        InsertedAll(urls, added);
        InsertedAll(next, rest);
        { KeepsLastInserted(next, rest); }
        Newest(next + rest);
        { InsertedIsNewest(urls, u); }
        Newest(Newest(urls + [u]) + rest);
        { NewestOfNewest(urls + [u], rest); }
        Newest(urls + added);
      }
    }
  }

  /** The URLs still to come are not in the set after the first of them is inserted. */
  lemma StillFresh(urls: seq<string>, added: seq<string>)
    requires Distinct(added) && added != [] && forall u | u in added :: u !in urls
    ensures Distinct(added[1..])
    ensures forall v | v in added[1..] :: v !in Inserted(urls, added[0])
  {
    var u, rest := added[0], added[1..];
    var next := Inserted(urls, u);
    var grown := if u in urls then urls else urls + [u];
    assert forall w | w in next :: w in grown;
    forall v | v in rest
      ensures v !in next
    {
      var j :| 0 <= j < |rest| && rest[j] == v;
      assert added[j + 1] == v && v in added;
    }
  }

  /** The recently submitted set, a `Set` read in its insertion order. */
  class RecentSubmissions {
    var urls: seq<string>

    ghost predicate Valid()
      reads this
    {
      Distinct(urls) && |urls| <= MaxRecentJobs
    }

    constructor ()
      ensures Valid() && urls == []
    {
      urls := [];
    }

    /** `wasRecentlySubmitted(url)` */
    function Has(url: string): bool
      reads this
    {
      url in urls
    }

    /**
     * `addToRecentlySubmitted(url)`: add the URL; past capacity, copy the
     * entries out, clear the set and add back all but the first.
     */
    method Add(url: string)
      requires Valid()
      modifies this
      ensures Valid()
      ensures urls == Inserted(old(urls), url)
    {
      InsertedKeepsBound(urls, url);
      if url !in urls {
        urls := urls + [url];
      }
      if |urls| > MaxRecentJobs {
        var jobArray := urls;
        urls := [];
        var rest := jobArray[1..];
        for i := 0 to |rest|
          invariant urls == rest[..i]
        {
          assert rest[i] !in urls by {
            assert forall j | 0 <= j < i :: rest[j] == jobArray[j + 1];
          }
          urls := urls + [rest[i]];
        }
        assert rest[..|rest|] == rest;
      }
    }
  }
}
