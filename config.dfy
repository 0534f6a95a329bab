/**
 * The two URL-list validators of `Settings` in kitchen/core/config.py:
 * `assemble_cors_origins` (BACKEND_CORS_ORIGINS) and `process_client_urls`
 * (ALLOWED_CLIENT_URLS into PROCESSED_CLIENT_URLS). Both split a comma-separated
 * string, trim and drop empty pieces, give scheme-less entries "http://", require an
 * http or https URL with a host, fail on the first bad entry and drop repeats.
 */
module SettingsParsers {
  import opened Wrappers
  import opened Text

  /** The two fields of `urllib.parse.urlparse` the validators read. */
  datatype UrlParts = UrlParts(scheme: string, netloc: string)

  /** `BACKEND_CORS_ORIGINS` before validation: a string from the environment, or a list. */
  datatype SettingValue = Raw(text: string) | Items(items: seq<string>)

  /** The length of the run of `\w` characters that starts `s`. */
  function WordRunLength(s: string): (n: nat)
    ensures n <= |s|
    ensures forall j :: 0 <= j < n ==> IsWordChar(s[j])
    ensures n < |s| ==> !IsWordChar(s[n])
  {
    if |s| == 0 || !IsWordChar(s[0]) then 0 else 1 + WordRunLength(s[1..])
  }

  /**
   * `re.match(r'^\w+://', s)`. Since ':' is not a word character, the greedy run of
   * word characters is the only candidate for `\w+`.
   */
  predicate HasScheme(s: string)
  {
    var n := WordRunLength(s);
    n > 0 && StartsWith(s[n..], "://")
  }

  /** Prefixing "http://" to an entry with no `\w+://` prefix. */
  function WithDefaultScheme(s: string): (r: string)
    ensures HasScheme(s) ==> r == s
    ensures !HasScheme(s) ==> r == "http://" + s
  {
    if HasScheme(s) then s else "http://" + s
  }

  lemma {:induction false} WordRunOfWord(w: string, rest: string)
    requires forall j :: 0 <= j < |w| ==> IsWordChar(w[j])
    requires |rest| > 0 && !IsWordChar(rest[0])
    ensures WordRunLength(w + rest) == |w|
  {
    if |w| > 0 {
      assert (w + rest)[1..] == w[1..] + rest;
      WordRunOfWord(w[1..], rest);
    }
  }

  /** An entry given the default scheme now has one, so applying the default twice changes nothing. */
  lemma DefaultSchemeIdempotent(s: string)
    ensures HasScheme(WithDefaultScheme(s))
    ensures WithDefaultScheme(WithDefaultScheme(s)) == WithDefaultScheme(s)
  {
    if !HasScheme(s) {
      var r := "http://" + s;
      assert r == "http" + ("://" + s);
      WordRunOfWord("http", "://" + s);
      assert r[4..] == "://" + s;
      assert r[4..][..3] == "://";
    }
  }

  /** The URL checks after `urlparse`: a scheme and a host are present and the scheme is http or https. */
  predicate AcceptedUrl(url: string, parse: string -> UrlParts)
  {
    var p := parse(url);
    p.scheme != "" && p.netloc != "" && (p.scheme == "http" || p.scheme == "https")
  }

  /** `[x.strip() for x in raw.split(",") if x.strip()]`. */
  function Entries(raw: string): (es: seq<string>)
    ensures forall i :: 0 <= i < |es| ==> es[i] != "" && Strip(es[i]) == es[i]
  {
    NonEmptyStripped(Split(raw, ','))
  }

  function NonEmptyStripped(pieces: seq<string>): (es: seq<string>)
    ensures forall i :: 0 <= i < |es| ==> es[i] != "" && Strip(es[i]) == es[i]
  {
    if |pieces| == 0 then []
    else
      var rest := NonEmptyStripped(pieces[1..]);
      var p := Strip(pieces[0]);
      StripIdempotent(pieces[0]);
      if p != "" then [p] + rest else rest
  }

  /** A comma never survives into an entry. */
  lemma EntriesLackCommas(raw: string)
    ensures forall i :: 0 <= i < |Entries(raw)| ==> ',' !in Entries(raw)[i]
  {
    SplitPiecesLackSeparator(raw, ',');
    NonEmptyStrippedLackCommas(Split(raw, ','));
  }

  lemma {:induction false} NonEmptyStrippedLackCommas(pieces: seq<string>)
    requires forall i :: 0 <= i < |pieces| ==> ',' !in pieces[i]
    ensures forall i :: 0 <= i < |NonEmptyStripped(pieces)| ==> ',' !in NonEmptyStripped(pieces)[i]
  {
    if |pieces| > 0 {
      NonEmptyStrippedLackCommas(pieces[1..]);
      var p := pieces[0];
      StripIsTrimmedSlice(p);
      var k := |p| - |TrimStart(p)|;
      forall j | 0 <= j < |Strip(p)| ensures Strip(p)[j] != ',' {
        assert Strip(p)[j] == p[k + j];
      }
    }
  }

  /**
   * The validation loop as one value: every entry with its default scheme, or the first
   * entry (after defaulting) that fails the URL checks.
   */
  function ValidateAll(entries: seq<string>, parse: string -> UrlParts): Result<seq<string>, string>
  {
    if |entries| == 0 then Ok([])
    else
      var url := WithDefaultScheme(entries[0]);
      if !AcceptedUrl(url, parse) then Err(url)
      else
        match ValidateAll(entries[1..], parse)
        case Ok(rest) => Ok([url] + rest)
        case Err(bad) => Err(bad)
  }

  /** Putting already validated URLs in front of the outcome of validating the rest. */
  function Prepend(done: seq<string>, r: Result<seq<string>, string>): Result<seq<string>, string>
  {
    match r
    case Ok(rest) => Ok(done + rest)
    case Err(bad) => Err(bad)
  }

  lemma PrependNothing(r: Result<seq<string>, string>)
    ensures Prepend([], r) == r
  {
    if r.Ok? {
      assert [] + r.value == r.value;
    }
  }

  lemma PrependTwice(a: seq<string>, b: seq<string>, r: Result<seq<string>, string>)
    ensures Prepend(a, Prepend(b, r)) == Prepend(a + b, r)
  {
    if r.Ok? {
      assert a + (b + r.value) == (a + b) + r.value;
    }
  }

  /** One step of the validation loop. */
  lemma ValidateAllStep(entries: seq<string>, i: nat, parse: string -> UrlParts)
    requires i < |entries|
    ensures var url := WithDefaultScheme(entries[i]);
      ValidateAll(entries[i..], parse) ==
        if AcceptedUrl(url, parse) then Prepend([url], ValidateAll(entries[i + 1..], parse)) else Err(url)
  {
    assert entries[i..][1..] == entries[i + 1..];
  }

  /** Validating the next entry moves it from the remaining entries to the validated ones. */
  lemma ValidatedStep(entries: seq<string>, validated: seq<string>, i: nat, parse: string -> UrlParts)
    requires i < |entries| && AcceptedUrl(WithDefaultScheme(entries[i]), parse)
    requires ValidateAll(entries, parse) == Prepend(validated, ValidateAll(entries[i..], parse))
    ensures ValidateAll(entries, parse) ==
      Prepend(validated + [WithDefaultScheme(entries[i])], ValidateAll(entries[i + 1..], parse))
  {
    var url := WithDefaultScheme(entries[i]);
    ValidateAllStep(entries, i, parse);
    PrependTwice(validated, [url], ValidateAll(entries[i + 1..], parse));
  }

  /** The first entry that fails the URL checks is the outcome of the whole validation. */
  lemma RejectedStep(entries: seq<string>, validated: seq<string>, i: nat, parse: string -> UrlParts)
    requires i < |entries| && !AcceptedUrl(WithDefaultScheme(entries[i]), parse)
    requires ValidateAll(entries, parse) == Prepend(validated, ValidateAll(entries[i..], parse))
    ensures ValidateAll(entries, parse) == Err(WithDefaultScheme(entries[i]))
  {
    ValidateAllStep(entries, i, parse);
  }

  /** Validation succeeds exactly when every defaulted entry is accepted, and then keeps every entry in order. */
  lemma {:induction false} ValidateAllSpec(entries: seq<string>, parse: string -> UrlParts)
    ensures ValidateAll(entries, parse).Ok? <==>
      forall i :: 0 <= i < |entries| ==> AcceptedUrl(WithDefaultScheme(entries[i]), parse)
    ensures ValidateAll(entries, parse).Ok? ==>
      var urls := ValidateAll(entries, parse).value;
      |urls| == |entries| && forall i :: 0 <= i < |entries| ==> urls[i] == WithDefaultScheme(entries[i])
    ensures ValidateAll(entries, parse).Err? ==>
      exists i :: 0 <= i < |entries| && ValidateAll(entries, parse).error == WithDefaultScheme(entries[i]) &&
        !AcceptedUrl(WithDefaultScheme(entries[i]), parse) &&
        forall j :: 0 <= j < i ==> AcceptedUrl(WithDefaultScheme(entries[j]), parse)
  {
    if |entries| > 0 {
      ValidateAllSpec(entries[1..], parse);
      var r := ValidateAll(entries[1..], parse);
      if AcceptedUrl(WithDefaultScheme(entries[0]), parse) && r.Err? {
        var i :| 0 <= i < |entries[1..]| && r.error == WithDefaultScheme(entries[1..][i]) &&
          !AcceptedUrl(WithDefaultScheme(entries[1..][i]), parse) &&
          forall j :: 0 <= j < i ==> AcceptedUrl(WithDefaultScheme(entries[1..][j]), parse);
        assert entries[i + 1] == entries[1..][i];
        forall j | 0 <= j < i + 1 ensures AcceptedUrl(WithDefaultScheme(entries[j]), parse) {
          if j > 0 {
            assert entries[j] == entries[1..][j - 1];
          }
        }
      }
      if !ValidateAll(entries, parse).Ok? && AcceptedUrl(WithDefaultScheme(entries[0]), parse) {
        assert r.Err?;
      }
      if ValidateAll(entries, parse).Ok? {
        forall i | 0 <= i < |entries| ensures AcceptedUrl(WithDefaultScheme(entries[i]), parse) {
          if i > 0 {
            assert entries[i] == entries[1..][i - 1];
          }
        }
      } else if AcceptedUrl(WithDefaultScheme(entries[0]), parse) {
        var i :| 0 <= i < |entries[1..]| && !AcceptedUrl(WithDefaultScheme(entries[1..][i]), parse);
        assert entries[i + 1] == entries[1..][i];
      }
    }
  }

  /** `assemble_cors_origins` as a value. */
  function CorsOrigins(v: SettingValue, parse: string -> UrlParts): (r: Result<SettingValue, string>)
    ensures v.Items? || StartsWith(v.text, "[") ==> r == Ok(v)
    ensures r.Ok? && r.value != v ==> r.value.Items? && NoDuplicates(r.value.items)
    ensures r.Err? ==> !AcceptedUrl(r.error, parse)
  {
    if v.Items? || StartsWith(v.text, "[") then Ok(v)
    else if v.text == "" then Ok(Items([]))
    else
      ValidateAllSpec(Entries(v.text), parse);
      match ValidateAll(Entries(v.text), parse)
      case Ok(urls) => DedupeSpec(urls); Ok(Items(Dedupe(urls)))
      case Err(bad) => Err(bad)
  }

  /** `process_client_urls` as a value. */
  function ClientUrls(raw: string, parse: string -> UrlParts): (r: Result<seq<string>, string>)
    ensures raw == "" ==> r == Ok([])
    ensures r.Ok? ==> NoDuplicates(r.value)
    ensures r.Err? ==> !AcceptedUrl(r.error, parse)
  {
    if raw == "" then Ok([])
    else
      ValidateAllSpec(Entries(raw), parse);
      match ValidateAll(Entries(raw), parse)
      case Ok(urls) => DedupeSpec(urls); Ok(Dedupe(urls))
      case Err(bad) => Err(bad)
  }

  /**
   * `assemble_cors_origins`: a list, or a string that looks like a JSON array, passes
   * through; otherwise each entry is checked in turn and the first bad one fails the
   * whole setting.
   */
  method AssembleCorsOrigins(v: SettingValue, parse: string -> UrlParts) returns (r: Result<SettingValue, string>)
    ensures r == CorsOrigins(v, parse)
  {
    if v.Items? || StartsWith(v.text, "[") {
      return Ok(v);
    }
    if v.text == "" {
      return Ok(Items([]));
    }
    var checked := CheckOrigins(Entries(v.text), parse);
    if checked.Err? {
      return Err(checked.error);
    }
    return Ok(Items(Dedupe(checked.value)));
  }

  /** The loop of `assemble_cors_origins`: default each entry's scheme and check it, stopping at the first bad one. */
  method CheckOrigins(origins: seq<string>, parse: string -> UrlParts) returns (r: Result<seq<string>, string>)
    ensures r == ValidateAll(origins, parse)
  {
    var validated: seq<string> := [];
    var i := 0;
    assert origins[i..] == origins;
    PrependNothing(ValidateAll(origins, parse));
    while i < |origins|
      invariant 0 <= i <= |origins|
      invariant ValidateAll(origins, parse) == Prepend(validated, ValidateAll(origins[i..], parse))
    {
      var origin := WithDefaultScheme(origins[i]);
      var parts := parse(origin);
      if parts.scheme == "" || parts.netloc == "" {
        RejectedStep(origins, validated, i, parse);
        return Err(origin);
      }
      if parts.scheme != "http" && parts.scheme != "https" {
        RejectedStep(origins, validated, i, parse);
        return Err(origin);
      }
      ValidatedStep(origins, validated, i, parse);
      validated := validated + [origin];
      i := i + 1;
    }
    assert origins[i..] == [];
    assert ValidateAll(origins, parse) == Ok(validated + []);
    assert validated + [] == validated;
    return Ok(validated);
  }

  /**
   * `validate_url`: strip, default the scheme, check. It accepts exactly when the stripped,
   * defaulted URL passes the URL checks, returns that URL, and otherwise reports it.
   */
  function ValidateUrl(url: string, parse: string -> UrlParts): (r: Result<string, string>)
    ensures r.Ok? <==> AcceptedUrl(WithDefaultScheme(Strip(url)), parse)
    ensures r.Ok? ==> r.value == WithDefaultScheme(Strip(url)) && HasScheme(r.value)
    ensures r.Err? ==> r.error == WithDefaultScheme(Strip(url))
  {
    var u := WithDefaultScheme(Strip(url));
    DefaultSchemeIdempotent(Strip(url));
    if AcceptedUrl(u, parse) then Ok(u) else Err(u)
  }

  /** `process_client_urls`: an empty setting gives no URLs; otherwise every entry must validate. */
  method ProcessClientUrls(raw: string, parse: string -> UrlParts) returns (r: Result<seq<string>, string>)
    ensures r == ClientUrls(raw, parse)
  {
    if raw == "" {
      return Ok([]);
    }
    var urls := Entries(raw);
    var validated: seq<string> := [];
    var i := 0;
    assert urls[i..] == urls;
    PrependNothing(ValidateAll(urls, parse));
    while i < |urls|
      invariant 0 <= i <= |urls|
      invariant ValidateAll(urls, parse) == Prepend(validated, ValidateAll(urls[i..], parse))
    {
      var checked := ValidateUrl(urls[i], parse);
      assert Strip(urls[i]) == urls[i];
      ValidateAllStep(urls, i, parse);
      if checked.Err? {
        assert ValidateAll(urls, parse) == Err(checked.error);
        return Err(checked.error);
      }
      PrependTwice(validated, [checked.value], ValidateAll(urls[i + 1..], parse));
      validated := validated + [checked.value];
      i := i + 1;
    }
    assert urls[i..] == [];
    assert ValidateAll(urls, parse) == Ok(validated + []);
    assert validated + [] == validated;
    return Ok(Dedupe(validated));
  }

  /** The entries with their default scheme, in order. */
  function Defaulted(entries: seq<string>): (urls: seq<string>)
    ensures |urls| == |entries|
    ensures forall i :: 0 <= i < |entries| ==> urls[i] == WithDefaultScheme(entries[i])
  {
    seq(|entries|, i requires 0 <= i < |entries| => WithDefaultScheme(entries[i]))
  }

  /**
   * A successful client-URL list holds accepted URLs with a scheme, each once; it has a
   * URL for every entry and nothing else, in the order of the entries' first occurrences.
   */
  lemma ClientUrlsSpec(raw: string, parse: string -> UrlParts)
    ensures ClientUrls(raw, parse).Ok? ==>
      var urls := ClientUrls(raw, parse).value;
      NoDuplicates(urls) &&
      (forall u :: u in urls ==> AcceptedUrl(u, parse) && HasScheme(u)) &&
      (forall e :: e in Entries(raw) && raw != "" ==> WithDefaultScheme(e) in urls) &&
      (forall u :: u in urls ==> u in Defaulted(Entries(raw))) &&
      (forall i, j :: 0 <= i < j < |urls| ==>
        FirstPosition(Defaulted(Entries(raw)), urls[i]) < FirstPosition(Defaulted(Entries(raw)), urls[j]))
    ensures ClientUrls(raw, parse).Err? <==>
      raw != "" && exists e :: e in Entries(raw) && !AcceptedUrl(WithDefaultScheme(e), parse)
  {
    if raw != "" {
      var es := Entries(raw);
      ValidateAllSpec(es, parse);
      if ValidateAll(es, parse).Ok? {
        var validated := ValidateAll(es, parse).value;
        assert validated == Defaulted(es);
        DedupeSpec(validated);
        forall u | u in validated ensures AcceptedUrl(u, parse) && HasScheme(u) {
          var i :| 0 <= i < |validated| && validated[i] == u;
          DefaultSchemeIdempotent(es[i]);
        }
        forall e | e in es ensures WithDefaultScheme(e) in validated {
          var i :| 0 <= i < |es| && es[i] == e;
          assert validated[i] == WithDefaultScheme(e);
        }
      } else {
        var i :| 0 <= i < |es| && !AcceptedUrl(WithDefaultScheme(es[i]), parse);
        assert es[i] in es;
      }
    }
  }

  /** The CORS list is left alone unless it is a plain (non-JSON-array) string. */
  lemma CorsPassThrough(v: SettingValue, parse: string -> UrlParts)
    requires v.Items? || StartsWith(v.text, "[")
    ensures CorsOrigins(v, parse) == Ok(v)
  {
  }

  /** The CORS and client-URL validators agree on every non-array string. */
  lemma {:induction false} CorsMatchesClientUrls(raw: string, parse: string -> UrlParts)
    requires !StartsWith(raw, "[")
    ensures CorsOrigins(Raw(raw), parse).Ok? <==> ClientUrls(raw, parse).Ok?
    ensures CorsOrigins(Raw(raw), parse).Ok? ==> CorsOrigins(Raw(raw), parse).value == Items(ClientUrls(raw, parse).value)
  {
  }

  /**
   * How `Settings()` fills PROCESSED_CLIENT_URLS. `BaseSettings` validates defaults, so
   * `process_client_urls` runs whether or not the field is supplied; it reads
   * ALLOWED_CLIENT_URLS, declared earlier, and discards any supplied value. An empty setting
   * loads no URLs; otherwise the list holds exactly the defaulted entries, or loading fails
   * at an entry that is not an http(s) URL with a host.
   */
  function LoadedClientUrls(allowed: string, parse: string -> UrlParts): (r: Result<seq<string>, string>)
    ensures allowed == "" ==> r == Ok([])
    ensures r.Ok? ==> forall e :: e in Entries(allowed) ==> WithDefaultScheme(e) in r.value
    ensures r.Ok? ==> forall u :: u in r.value ==> u in Defaulted(Entries(allowed))
    ensures r.Err? <==> exists e :: e in Entries(allowed) && !AcceptedUrl(WithDefaultScheme(e), parse)
  {
    ClientUrlsSpec(allowed, parse);
    if allowed == "" then NoEntriesWhenEmpty(); ClientUrls(allowed, parse)
    else ClientUrls(allowed, parse)
  }

  /** An empty setting has no entries. */
  lemma NoEntriesWhenEmpty()
    ensures Entries("") == []
  {
    assert Split("", ',') == [""];
    assert NonEmptyStripped([""][1..]) == [];
  }
}
