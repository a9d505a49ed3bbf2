/** The API client of connector.py: the versioned base URL, the query
    parameters (a dict the client mutates to inject the API key), the URL it
    builds, and the probe that reads the number of valid pages out of the
    API's error text. The HTTP transport is the oracle `Api`. */
module Connector {
  import opened Json
  import opened Text

  const BaseUrl: string := "https://api.guildwars2.com/"
  const DefaultVersion: string := "v2"
  /** `Connector._PAGE_SIZE` */
  const PageSize: nat := 200
  /** `Connector._BIG_PAGE`, a page index beyond any real one. */
  const BigPage: nat := 9999

  // ---------------------------------------------------------------------
  // The transport

  /** The HTTP side: request number `t` fails (the transport raises, or
      `.json()` cannot decode the body) when `fails(t)`; otherwise the
      decoded body of a GET of `url` is `body(url)`. An HTTP error status
      raises nothing: its body is decoded like any other. */
  datatype Api = Api(fails: nat -> bool, body: string -> Json)

  /** `requests.get(url).json()` as the `t`-th request of a run. */
  function Request(api: Api, t: nat, url: string): (r: Result<Json>)
    ensures r.Err? <==> api.fails(t)
    ensures r.Ok? ==> r.value == api.body(url)
    ensures r.Err? ==> r.error == TransportError
  {
    if api.fails(t) then Err(TransportError) else Ok(api.body(url))
  }

  // ---------------------------------------------------------------------
  // Query parameters: an insertion-ordered dict

  /** A query parameter value: the scripts pass ints and strings. */
  datatype ParamValue = PInt(i: int) | PStr(s: string)

  /** `str(value)`, as `'{value}'.format(...)` renders it. */
  function Render(v: ParamValue): string {
    match v
    case PInt(i) => IntToDecimal(i)
    case PStr(s) => s
  }

  type Entries = seq<(string, ParamValue)>

  predicate HasKey(es: Entries, k: string) { exists i :: 0 <= i < |es| && es[i].0 == k }

  predicate DistinctKeys(es: Entries) {
    forall i, j :: 0 <= i < j < |es| ==> es[i].0 != es[j].0
  }

  /** The value `params[k]` reads, none when no entry has key `k`. */
  function Lookup(es: Entries, k: string): (r: Option<ParamValue>)
    ensures r.None? <==> !HasKey(es, k)
  {
    if es == [] then None
    else if es[0].0 == k then Some(es[0].1)
    else
      assert forall i :: 1 <= i < |es| ==> es[i] == es[1..][i - 1];
      Lookup(es[1..], k)
  }

  /** `params[k] = v` on an insertion-ordered dict: an existing entry keeps
      its position, a new one goes last. */
  function SetKey(es: Entries, k: string, v: ParamValue): (r: Entries)
  {
    if HasKey(es, k) then seq(|es|, i requires 0 <= i < |es| => if es[i].0 == k then (k, v) else es[i])
    else es + [(k, v)]
  }

  /** After `params[k] = v` the dict maps `k` to `v`, every other key to what
      it mapped to before, keeps its keys distinct, and holds `k` exactly once. */
  lemma {:induction false} SetKeyLookup(es: Entries, k: string, v: ParamValue)
    requires DistinctKeys(es)
    ensures DistinctKeys(SetKey(es, k, v))
    ensures Lookup(SetKey(es, k, v), k) == Some(v)
    ensures forall k' :: k' != k ==> Lookup(SetKey(es, k, v), k') == Lookup(es, k')
    ensures forall i, j ::
              (0 <= i < |SetKey(es, k, v)| && 0 <= j < |SetKey(es, k, v)|
               && SetKey(es, k, v)[i].0 == k && SetKey(es, k, v)[j].0 == k) ==> i == j
  {
    var r := SetKey(es, k, v);
    forall k' ensures Lookup(r, k') == (if k' == k then Some(v) else Lookup(es, k')) {
      LookupSetKey(es, k, v, k');
    }
  }

  /** The position of the first entry with key `k`. */
  function KeyIndex(es: Entries, k: string): (i: nat)
    requires HasKey(es, k)
    ensures i < |es| && es[i].0 == k
    ensures forall j :: 0 <= j < i ==> es[j].0 != k
  {
    if es[0].0 == k then 0
    else
      assert HasKey(es[1..], k) by {
        var i :| 0 <= i < |es| && es[i].0 == k;
        assert es[1..][i - 1].0 == k;
      }
      1 + KeyIndex(es[1..], k)
  }

  /** Lookup returns the value of the first entry with the key. */
  lemma {:induction false} LookupFirst(es: Entries, k: string, i: nat)
    requires i < |es| && es[i].0 == k
    requires forall j :: 0 <= j < i ==> es[j].0 != k
    ensures Lookup(es, k) == Some(es[i].1)
  {
    if i > 0 {
      assert es[1..][i - 1] == es[i];
      LookupFirst(es[1..], k, i - 1);
    }
  }

  lemma LookupSetKey(es: Entries, k: string, v: ParamValue, k': string)
    ensures Lookup(SetKey(es, k, v), k') == (if k' == k then Some(v) else Lookup(es, k'))
  {
    var r := SetKey(es, k, v);
    if k' == k {
      if HasKey(es, k) {
        LookupFirst(r, k, KeyIndex(es, k));
      } else {
        LookupFirst(r, k, |es|);
      }
    } else if HasKey(es, k') {
      var i := KeyIndex(es, k');
      LookupFirst(es, k', i);
      LookupFirst(r, k', i);
    } else {
      assert !HasKey(r, k');
    }
  }

  /** The Python dict the caller passes as `params`. Assigning to it changes
      the caller's object. */
  class Params {
    var entries: Entries

    ghost predicate Valid() reads this { DistinctKeys(entries) }

    /** A dict display `{k1: v1, ...}` with distinct keys. */
    constructor (init: Entries)
      requires DistinctKeys(init)
      ensures Valid() && entries == init
    {
      entries := init;
    }

    /** `params[k] = v` */
    method Set(k: string, v: ParamValue)
      requires Valid()
      modifies this
      ensures Valid()
      ensures entries == SetKey(old(entries), k, v)
    {
      SetKeyLookup(entries, k, v);
      entries := SetKey(entries, k, v);
    }
  }

  // ---------------------------------------------------------------------
  // URL building

  /** The `key=value` strings, in dict order. */
  function Pairs(es: Entries): (ps: seq<string>)
    ensures |ps| == |es|
    ensures forall i :: 0 <= i < |es| ==> ps[i] == es[i].0 + "=" + Render(es[i].1)
  {
    seq(|es|, i requires 0 <= i < |es| => es[i].0 + "=" + Render(es[i].1))
  }

  /** `'?' + '&'.join(pairs)`: nothing is percent-encoded. */
  function Query(es: Entries): string {
    "?" + Join(Pairs(es), "&")
  }

  /** `'/' + '/'.join(args)` */
  function Path(args: seq<string>): string {
    "/" + Join(args, "/")
  }

  /** No key or rendered value contains the pair separator. */
  predicate QuerySafe(es: Entries) {
    forall i :: 0 <= i < |es| ==> '&' !in es[i].0 && '&' !in Render(es[i].1)
  }

  /** The query string lists the dict's pairs in order: when no key or value
      contains '&', cutting it at each '&' gives back exactly the pairs. */
  lemma QueryListsPairs(es: Entries)
    requires |es| > 0 && QuerySafe(es)
    ensures Query(es)[0] == '?'
    ensures Split(Query(es)[1..], '&') == Pairs(es)
  {
    var ps := Pairs(es);
    forall i | 0 <= i < |ps| ensures '&' !in ps[i] {
      assert ps[i] == es[i].0 + "=" + Render(es[i].1);
      assert '&' !in "=";
    }
    SplitJoin(ps, '&');
    assert Query(es)[1..] == Join(ps, "&");
  }

  /** An integer value never breaks the query apart. */
  lemma RenderedIntSafe(i: int)
    ensures '&' !in Render(PInt(i)) && '=' !in Render(PInt(i))
  {
    var s := NatToDecimal(if i < 0 then -i else i);
    assert forall j :: 0 <= j < |s| ==> IsDigit(s[j]);
    if i < 0 {
      assert Render(PInt(i)) == "-" + s;
    }
  }

  /** The connector: its key and its versioned API root. */
  class Connector {
    const apikey: string
    const apiUrl: string

    /** `Connector(apikey, version)`; the scripts use version `v2`. */
    constructor (apikey: string, version: string)
      ensures this.apikey == apikey
      ensures apiUrl == BaseUrl + version
    {
      this.apikey := apikey;
      this.apiUrl := BaseUrl + version;
    }

    /** The URL `get(*args, params=es)` requests. */
    function UrlFor(args: seq<string>, es: Entries): string {
      apiUrl + Path(args) + Query(SetKey(es, "apikey", PStr(apikey)))
    }

    /** `_complete_url(*args, params=params)`: writes the key into the
        caller's dict, then builds root + path + query from the dict. */
    method CompleteUrl(args: seq<string>, params: Params) returns (url: string)
      requires params.Valid()
      modifies params
      ensures params.Valid()
      ensures params.entries == SetKey(old(params.entries), "apikey", PStr(apikey))
      ensures Lookup(params.entries, "apikey") == Some(PStr(apikey))
      ensures forall k :: k != "apikey" ==> Lookup(params.entries, k) == Lookup(old(params.entries), k)
      ensures url == apiUrl + Path(args) + Query(params.entries)
      ensures url == UrlFor(args, old(params.entries))
    {
      SetKeyLookup(params.entries, "apikey", PStr(apikey));
      params.Set("apikey", PStr(apikey));
      var qstr := "?" + Join(Pairs(params.entries), "&");
      var paths := "/" + Join(args, "/");
      url := apiUrl + paths + qstr;
    }

    /** The probe URL `get_max_page` requests. */
    function ProbeUrl(args: seq<string>): string {
      UrlFor(args, [("page", PInt(BigPage)), ("page_size", PInt(PageSize))])
    }

    /** What `get_max_page(*args)` returns, or raises, as request number `t`. */
    function MaxPageAt(api: Api, t: nat, args: seq<string>): Result<nat> {
      if api.fails(t) then Err(TransportError) else MaxPageOfBody(api.body(ProbeUrl(args)))
    }

    /** `get_max_page(*args)` as request number `t`. */
    method GetMaxPage(api: Api, t: nat, args: seq<string>) returns (r: Result<nat>)
      ensures api.fails(t) ==> r == Err(TransportError)
      ensures !api.fails(t) ==> r == MaxPageOfBody(api.body(ProbeUrl(args)))
      ensures r == MaxPageAt(api, t, args)
    {
      var params := new Params([("page", PInt(BigPage)), ("page_size", PInt(PageSize))]);
      var url := CompleteUrl(args, params);
      var resp := Request(api, t, url);
      match resp {
        case Err(e) =>
          r := Err(e);
        case Ok(body) =>
          r := MaxPageOfBody(body);
      }
    }
  }

  /** The probe asks for page 9999 with 200 entries per page, then the key. */
  lemma ProbeQuery(apikey: string)
    ensures Query(SetKey([("page", PInt(BigPage)), ("page_size", PInt(PageSize))], "apikey", PStr(apikey)))
         == "?" + Join(["page=9999", "page_size=200", "apikey=" + apikey], "&")
  {
    var r := ProbeEntries(apikey);
    ProbePairs(apikey, r);
  }

  /** The probe's dict after the key is written into it. */
  function ProbeEntries(apikey: string): (r: Entries)
    ensures SetKey([("page", PInt(BigPage)), ("page_size", PInt(PageSize))], "apikey", PStr(apikey)) == r
    ensures r == [("page", PInt(BigPage)), ("page_size", PInt(PageSize)), ("apikey", PStr(apikey))]
  {
    var es := [("page", PInt(BigPage)), ("page_size", PInt(PageSize))];
    assert !HasKey(es, "apikey");
    es + [("apikey", PStr(apikey))]
  }

  lemma ProbePairs(apikey: string, r: Entries)
    requires r == [("page", PInt(BigPage)), ("page_size", PInt(PageSize)), ("apikey", PStr(apikey))]
    ensures Pairs(r) == ["page=9999", "page_size=200", "apikey=" + apikey]
  {
    PairsThree(r[0], r[1], r[2]);
    assert "page" + "=" + Render(PInt(BigPage)) == "page=9999" by {
      ProbeRenders();
    }
    assert "page_size" + "=" + Render(PInt(PageSize)) == "page_size=200" by {
      ProbeRenders();
    }
    assert "apikey" + "=" + Render(PStr(apikey)) == "apikey=" + apikey by {
      assert "apikey" + "=" == "apikey=";
    }
  }

  lemma PairsThree(e0: (string, ParamValue), e1: (string, ParamValue), e2: (string, ParamValue))
    ensures Pairs([e0, e1, e2])
         == [e0.0 + "=" + Render(e0.1), e1.0 + "=" + Render(e1.1), e2.0 + "=" + Render(e2.1)]
  {
  }

  lemma ProbeRenders()
    ensures Render(PInt(BigPage)) == "9999" && Render(PInt(PageSize)) == "200"
  {
    assert NatToDecimal(9) == "9";
    assert NatToDecimal(99) == "99";
    assert NatToDecimal(999) == "999";
    assert NatToDecimal(2) == "2";
    assert NatToDecimal(20) == "20";
  }

  // ---------------------------------------------------------------------
  // The page-bound pattern  0\s-\s(\d+)\.

  /** The length of the run of digits starting at `i`. */
  function DigitRun(s: string, i: nat): (n: nat)
    requires i <= |s|
    ensures i + n <= |s|
    ensures forall j :: i <= j < i + n ==> IsDigit(s[j])
    ensures i + n == |s| || !IsDigit(s[i + n])
    decreases |s| - i
  {
    if i < |s| && IsDigit(s[i]) then 1 + DigitRun(s, i + 1) else 0
  }

  /** The pattern read with `\d+` taking exactly `n` digits. */
  ghost predicate PatternAt(s: string, i: nat, n: nat) {
    && i + 4 + n < |s|
    && s[i] == '0' && IsSpace(s[i + 1]) && s[i + 2] == '-' && IsSpace(s[i + 3])
    && n > 0
    && (forall j :: i + 4 <= j < i + 4 + n ==> IsDigit(s[j]))
    && s[i + 4 + n] == '.'
  }

  /** The pattern matches at `i`, with `\d+` taking the whole digit run. */
  predicate MatchAt(s: string, i: nat) {
    && i + 4 < |s|
    && s[i] == '0' && IsSpace(s[i + 1]) && s[i + 2] == '-' && IsSpace(s[i + 3])
    && var n := DigitRun(s, i + 4);
       n > 0 && i + 4 + n < |s| && s[i + 4 + n] == '.'
  }

  /** Greedy matching loses nothing: the pattern matches at `i` for some
      length of the digit group exactly when it matches with the whole run,
      and that is the only length that matches. */
  lemma MatchAtIsPattern(s: string, i: nat)
    ensures MatchAt(s, i) <==> exists n: nat :: PatternAt(s, i, n)
    ensures forall n: nat :: PatternAt(s, i, n) ==> n == DigitRun(s, i + 4)
  {
    forall n: nat | PatternAt(s, i, n) ensures n == DigitRun(s, i + 4) {
      var d := DigitRun(s, i + 4);
      assert !IsDigit(s[i + 4 + n]);
      assert i + 4 + d < |s| ==> !IsDigit(s[i + 4 + d]);
    }
    if MatchAt(s, i) {
      assert PatternAt(s, i, DigitRun(s, i + 4));
    }
  }

  /** `re.search`: the leftmost position at or after `from` where the pattern matches. */
  function Search(s: string, from: nat): (r: Option<nat>)
    requires from <= |s|
    ensures r.Some? ==> from <= r.value < |s| && MatchAt(s, r.value)
    ensures r.Some? ==> forall j :: from <= j < r.value ==> !MatchAt(s, j)
    ensures r.None? ==> forall j :: from <= j < |s| ==> !MatchAt(s, j)
    decreases |s| - from
  {
    if from == |s| then None
    else if MatchAt(s, from) then Some(from)
    else Search(s, from + 1)
  }

  /** `int(re.search(r'0\s-\s(\d+)\.', text).group(1))`, None when nothing matches. */
  function ParseMaxPage(text: string): (r: Option<nat>)
  {
    match Search(text, 0)
    case None => None
    case Some(i) =>
      var n := DigitRun(text, i + 4);
      Some(DecimalValue(text[i + 4..i + 4 + n]))
  }

  /** ParseMaxPage finds the leftmost match and reads its digit group; it
      gives None exactly when the pattern matches nowhere. */
  lemma ParseMaxPageLeftmost(text: string, i: nat)
    requires i < |text| && MatchAt(text, i)
    requires forall j :: 0 <= j < i ==> !MatchAt(text, j)
    ensures ParseMaxPage(text) == Some(DecimalValue(text[i + 4..i + 4 + DigitRun(text, i + 4)]))
  {
    var r := Search(text, 0);
    assert r.Some?;
    assert r.value == i;
  }

  /** The error text tells the page count back: after a prefix with no '0',
      the range `0 - <n>.` yields `n`, whatever follows it. */
  lemma ErrorTextRoundTrip(prefix: string, n: nat, suffix: string)
    requires '0' !in prefix
    ensures ParseMaxPage(prefix + "0 - " + NatToDecimal(n) + "." + suffix) == Some(n)
  {
    var s := prefix + "0 - " + NatToDecimal(n) + "." + suffix;
    ErrorTextAt(prefix, n, suffix, s);
  }

  lemma ErrorTextAt(prefix: string, n: nat, suffix: string, s: string)
    requires '0' !in prefix
    requires s == prefix + "0 - " + NatToDecimal(n) + "." + suffix
    ensures ParseMaxPage(s) == Some(n)
  {
    var d := NatToDecimal(n);
    var i := |prefix|;
    RangeAt(prefix, d, suffix, s);
    forall j | 0 <= j < i ensures !MatchAt(s, j) {
      assert s[j] == prefix[j];
    }
    ParseMaxPageLeftmost(s, i);
    DecimalRoundTrip(n);
  }

  /** The range text placed after `prefix` matches there, with the whole
      numeral as its digit group. */
  lemma RangeAt(prefix: string, d: string, suffix: string, s: string)
    requires |d| > 0 && AllDigits(d)
    requires s == prefix + "0 - " + d + "." + suffix
    ensures MatchAt(s, |prefix|)
    ensures DigitRun(s, |prefix| + 4) == |d|
    ensures s[|prefix| + 4..|prefix| + 4 + |d|] == d
  {
    var i := |prefix|;
    assert s[i] == '0' && s[i + 1] == ' ' && s[i + 2] == '-' && s[i + 3] == ' ';
    assert s == (prefix + "0 - ") + d + ("." + suffix);
    SliceMiddle(prefix + "0 - ", d, "." + suffix);
    assert s[i + 4 + |d|] == '.';
    MatchOfRange(s, i, d);
  }

  lemma MatchOfRange(s: string, i: nat, d: string)
    requires |d| > 0 && AllDigits(d) && i + 4 + |d| < |s|
    requires s[i] == '0' && s[i + 1] == ' ' && s[i + 2] == '-' && s[i + 3] == ' '
    requires s[i + 4..i + 4 + |d|] == d
    requires s[i + 4 + |d|] == '.'
    ensures MatchAt(s, i) && DigitRun(s, i + 4) == |d|
  {
    assert forall j :: i + 4 <= j < i + 4 + |d| ==> s[j] == d[j - i - 4];
    DigitRunIs(s, i + 4, |d|);
  }

  lemma DigitRunIs(s: string, i: nat, n: nat)
    requires i + n < |s|
    requires forall j :: i <= j < i + n ==> IsDigit(s[j])
    requires !IsDigit(s[i + n])
    ensures DigitRun(s, i) == n
    decreases n
  {
    if n > 0 {
      DigitRunIs(s, i + 1, n - 1);
    }
  }

  /** An out-of-range text of the shape the pattern expects. */
  lemma ApiErrorTextExample()
    ensures ParseMaxPage("page out of range. Use a value between 0 - 269.") == Some(269)
  {
    var prefix := "page out of range. Use a value between ";
    assert NatToDecimal(269) == "269";
    NoZeroInPrefix(prefix);
    ErrorTextRoundTrip(prefix, 269, "");
    ErrorTextPieces(prefix);
  }

  lemma NoZeroInPrefix(prefix: string)
    requires prefix == "page out of range. Use a value between "
    ensures '0' !in prefix
  {
  }

  lemma ErrorTextPieces(prefix: string)
    requires prefix == "page out of range. Use a value between "
    ensures prefix + "0 - " + "269" + "." + "" == "page out of range. Use a value between 0 - 269."
  {
  }

  /** What `get_max_page` makes of a decoded response body: `['text']`
      raises unless the body is a dict with that key, `re.search` raises on a
      non-string, and `.group` raises on a failed search. */
  function MaxPageOfBody(body: Json): (r: Result<nat>)
    ensures r.Ok? <==> body.Obj? && "text" in body.fields && body.fields["text"].Str?
                       && ParseMaxPage(body.fields["text"].s).Some?
    ensures r.Ok? ==> r.value == ParseMaxPage(body.fields["text"].s).value
    ensures body.Obj? && "text" !in body.fields ==> r == Err(KeyError("text"))
  {
    match Index(body, "text")
    case Err(e) => Err(e)
    case Ok(text) =>
      if !text.Str? then Err(TypeError)
      else
        match ParseMaxPage(text.s)
        case None => Err(AttributeError)
        case Some(n) => Ok(n)
  }
}
