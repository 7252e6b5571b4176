/**
 * The market: an append-only list of stocks plus a by-code index in which
 * a later stock with the same code replaces the earlier one.
 */
module Markets {
  import opened Stocks

  /**
   * Where the most recently added stock with `code` sits in `added`, or -1
   * when no stock with that code was added.
   */
  function LastIndexWithCode(added: seq<Stock>, code: string): (r: int)
    ensures -1 <= r < |added|
    ensures r >= 0 ==> added[r].code == code
  {
    if |added| == 0 then -1
    else if added[|added| - 1].code == code then |added| - 1
    else LastIndexWithCode(added[..|added| - 1], code)
  }

  /** No stock added after the one found carries the code; none at all when nothing is found. */
  lemma {:induction false} NothingLaterWithCode(added: seq<Stock>, code: string)
    ensures forall j :: LastIndexWithCode(added, code) < j < |added| ==> added[j].code != code
    decreases |added|
  {
    if |added| > 0 && added[|added| - 1].code != code {
      var p := added[..|added| - 1];
      NothingLaterWithCode(p, code);
      assert forall j :: 0 <= j < |p| ==> p[j] == added[j];
    }
  }

  /**
   * What a lookup by `code` yields after the stocks of `added` were added in
   * order: the most recently added stock with that code, or null if none.
   */
  function LastWithCode(added: seq<Stock>, code: string): (r: Stock?)
  {
    var i := LastIndexWithCode(added, code);
    if i < 0 then null else added[i]
  }

  class Market {
    var list: seq<Stock>
    var byCode: map<string, Stock>

    /** The index holds, for every code, exactly the last stock added with it. */
    ghost predicate Valid()
      reads this
    {
      && (forall c :: c in byCode ==> byCode[c].code == c && byCode[c] == LastWithCode(list, c))
      && (forall i :: 0 <= i < |list| ==> list[i].code in byCode)
    }

    constructor ()
      ensures Valid()
      ensures list == [] && byCode == map[]
    {
      list := [];
      byCode := map[];
    }

    method Add(s: Stock)
      requires Valid()
      modifies this
      ensures Valid()
      ensures list == old(list) + [s]
      ensures byCode == old(byCode)[s.code := s]
      ensures Get(s.code) == s
      ensures forall c :: c != s.code ==> Get(c) == old(Get(c))
    {
      ghost var before := list;
      list := list + [s];
      byCode := byCode[s.code := s];
      assert list[..|list| - 1] == before;
    }

    /** The stocks in the order they were added, duplicates of a code included. */
    function List(): (r: seq<Stock>)
      reads this
      ensures r == list
    {
      list
    }

    /** The most recently added stock with this code, or null when none was added. */
    function Get(code: string): (s: Stock?)
      requires Valid()
      reads this
      ensures s == LastWithCode(list, code)
      ensures s != null ==> s.code == code && code in byCode && s == byCode[code] && s in byCode.Values
    {
      if code in byCode then byCode[code] else null
    }
  }

  /** Every stock the index holds is filed under its own code. */
  lemma IndexedByOwnCode(m: Market)
    requires m.Valid()
    ensures forall s :: s in m.byCode.Values ==> s.code in m.byCode && m.byCode[s.code] == s
  {
    forall s | s in m.byCode.Values ensures s.code in m.byCode && m.byCode[s.code] == s {
      var c :| c in m.byCode && m.byCode[c] == s;
    }
  }

  /** A lookup finds nothing exactly when no stock with that code was ever added. */
  lemma {:induction false} NoneFoundIffNeverAdded(added: seq<Stock>, code: string)
    ensures LastWithCode(added, code) == null <==> forall i :: 0 <= i < |added| ==> added[i].code != code
  {
    NothingLaterWithCode(added, code);
  }

  /**
   * Adding two stocks with one code: the index answers with the second,
   * while the list keeps both, in order.
   */
  method AddSameCodeTwice(m: Market, first: Stock, second: Stock)
    requires m.Valid()
    requires first.code == second.code
    modifies m
    ensures m.Valid()
    ensures m.Get(first.code) == second
    ensures m.List() == old(m.List()) + [first, second]
  {
    m.Add(first);
    m.Add(second);
  }
}
