/**
 * The decision rules of the S3 file processor that do not touch the
 * store: where a processed file goes, which files are upper-cased, how an
 * object key arrives URL-encoded in an event, how the listing limit and
 * the sweep age are read from an event, which objects the sweep selects
 * and how it batches them, and how the health check aggregates.
 */
module FileRules {
  import opened Wrappers
  import opened Json
  import opened PyText
  import opened ObjectStore

  // ---------------------------------------------------------------------
  // Destination key

  const ProcessedPrefix: string := "processed/"

  /**
   * The key a processed file is written under (and the key a deletion
   * cleans up): every occurrence of the processing prefix replaced by
   * `processed/`, and `processed/` put in front unless already there.
   */
  function DestinationKey(key: string, processingPrefix: string): (r: string)
    ensures StartsWith(r, ProcessedPrefix)
  {
    var replaced := Replace(key, processingPrefix, ProcessedPrefix);
    if StartsWith(replaced, ProcessedPrefix) then replaced else ProcessedPrefix + replaced
  }

  /** A key under the processing prefix moves to the same name under `processed/`. */
  lemma DestinationOfIncoming(processingPrefix: string, name: string)
    requires processingPrefix != [] && Find(name, processingPrefix).None?
    ensures DestinationKey(processingPrefix + name, processingPrefix) == ProcessedPrefix + name
  {
    var key := processingPrefix + name;
    assert key[..|processingPrefix|] == processingPrefix;
    assert key[|processingPrefix|..] == name;
    ReplaceLeading(key, processingPrefix, ProcessedPrefix);
    ReplaceWithoutOccurrence(name, processingPrefix, ProcessedPrefix);
    assert (ProcessedPrefix + name)[..|ProcessedPrefix|] == ProcessedPrefix;
  }

  /**
   * A key that does not contain the processing prefix keeps its name,
   * with `processed/` in front unless it already starts with it.
   */
  lemma DestinationOfOther(key: string, processingPrefix: string)
    requires processingPrefix != [] && Find(key, processingPrefix).None?
    ensures DestinationKey(key, processingPrefix) ==
      if StartsWith(key, ProcessedPrefix) then key else ProcessedPrefix + key
  {
    ReplaceWithoutOccurrence(key, processingPrefix, ProcessedPrefix);
  }

  /**
   * An empty processing prefix matches between every two characters, so
   * `processed/` is inserted before every character and once at the end:
   * each character of the key is kept, at every eleventh place after its
   * copy of `processed/`.
   */
  lemma {:induction false} DestinationOfEmptyPrefix(key: string)
    ensures |DestinationKey(key, [])| == |key| + |ProcessedPrefix| * (|key| + 1)
    ensures PrefixedEach(DestinationKey(key, []), key)
  {
    ReplaceEmptyLength(key, ProcessedPrefix);
    ReplaceEmptyLayout(key);
    assert StartsWith(Replace(key, [], ProcessedPrefix), ProcessedPrefix) by {
      assert Replace(key, [], ProcessedPrefix)[..10] == ProcessedPrefix;
    }
  }

  /** `r` is `t` with `processed/` before every character and at the end. */
  predicate PrefixedEach(r: string, t: string)
  {
    && |r| == 11 * |t| + 10
    && (forall i :: 0 <= i < |t| ==> r[11 * i .. 11 * i + 10] == ProcessedPrefix && r[11 * i + 10] == t[i])
    && r[11 * |t| ..] == ProcessedPrefix
  }

  /** Where `Replace(s, "", "processed/")` puts each copy of the prefix and each character of `s`. */
  lemma {:induction false} ReplaceEmptyLayout(s: string)
    ensures PrefixedEach(Replace(s, [], ProcessedPrefix), s)
  {
    if s == [] {
      assert Replace(s, [], ProcessedPrefix) == ProcessedPrefix;
    } else {
      ReplaceEmptyLayout(s[1..]);
      var rest := Replace(s[1..], [], ProcessedPrefix);
      assert Replace(s, [], ProcessedPrefix) == ProcessedPrefix + [s[0]] + rest;
      PrefixedEachCons(s[0], s[1..], rest);
      assert [s[0]] + s[1..] == s;
    }
  }

  /** Putting `processed/` and one more character in front extends the layout by one place. */
  lemma PrefixedEachCons(c: char, t: string, rest: string)
    requires PrefixedEach(rest, t)
    ensures PrefixedEach(ProcessedPrefix + [c] + rest, [c] + t)
  {
    var r := ProcessedPrefix + [c] + rest;
    var t' := [c] + t;
    forall i | 0 <= i < |t'|
      ensures r[11 * i .. 11 * i + 10] == ProcessedPrefix && r[11 * i + 10] == t'[i]
    {
      if i > 0 {
        assert r[11 * i .. 11 * i + 10] == rest[11 * (i - 1) .. 11 * (i - 1) + 10];
        assert r[11 * i + 10] == rest[11 * (i - 1) + 10];
      }
    }
    assert r[11 * |t'| ..] == rest[11 * |t| ..];
  }

  lemma {:induction false} ReplaceEmptyLength(s: string, repl: string)
    ensures |Replace(s, [], repl)| == |s| + |repl| * (|s| + 1)
  {
    if s != [] {
      ReplaceEmptyLength(s[1..], repl);
    }
  }

  // ---------------------------------------------------------------------
  // Content transform

  /** Text is recognised by its content type or by a `.txt` key. */
  predicate IsText(contentType: string, key: string)
  {
    StartsWith(contentType, "text/") || EndsWith(key, ".txt")
  }

  function UpperByte(b: byte): byte
  {
    if 97 <= b <= 122 then b - 32 else b
  }

  /** ASCII upper-casing of a byte string. */
  function UpperBytes(content: seq<byte>): (r: seq<byte>)
    ensures |r| == |content|
    ensures forall i :: 0 <= i < |r| ==> r[i] == UpperByte(content[i])
  {
    seq(|content|, i requires 0 <= i < |content| => UpperByte(content[i]))
  }

  /** What is written to the destination: upper-cased text, other content as it is. */
  function Transform(content: seq<byte>, contentType: string, key: string): seq<byte>
  {
    if IsText(contentType, key) then UpperBytes(content) else content
  }

  /**
   * The transform keeps the length; a binary file is copied byte for
   * byte; a text file comes out with no lower-case ASCII letter left and
   * every other byte unchanged; and transforming twice changes nothing
   * more.
   */
  lemma TransformSpec(content: seq<byte>, contentType: string, key: string)
    ensures |Transform(content, contentType, key)| == |content|
    ensures !IsText(contentType, key) ==> Transform(content, contentType, key) == content
    ensures IsText(contentType, key) ==> forall i :: 0 <= i < |content| ==>
      && !(97 <= Transform(content, contentType, key)[i] <= 122)
      && (!(97 <= content[i] <= 122) ==> Transform(content, contentType, key)[i] == content[i])
    ensures Transform(Transform(content, contentType, key), contentType, key) == Transform(content, contentType, key)
  {
  }

  // ---------------------------------------------------------------------
  // URL-decoding of event keys

  predicate IsHexDigit(c: char)
  {
    '0' <= c <= '9' || 'a' <= c <= 'f' || 'A' <= c <= 'F'
  }

  function HexValue(c: char): (v: nat)
    requires IsHexDigit(c)
    ensures v < 16
  {
    if '0' <= c <= '9' then c as int - '0' as int
    else if 'a' <= c <= 'f' then c as int - 'a' as int + 10
    else c as int - 'A' as int + 10
  }

  function HexDigit(d: nat): (c: char)
    requires d < 16
    ensures IsHexDigit(c) && HexValue(c) == d
  {
    if d < 10 then ('0' as int + d) as char else ('A' as int + d - 10) as char
  }

  /**
   * `urllib.parse.unquote_plus` for escapes of ASCII characters: `+` is a
   * space and `%XX` the character with that code; any other `%` stays.
   */
  function UnquotePlus(s: string): string
    decreases |s|
  {
    if s == [] then []
    else if s[0] == '+' then " " + UnquotePlus(s[1..])
    else if s[0] == '%' && |s| >= 3 && IsHexDigit(s[1]) && IsHexDigit(s[2]) &&
            HexValue(s[1]) * 16 + HexValue(s[2]) < 128 then
      [(HexValue(s[1]) * 16 + HexValue(s[2])) as char] + UnquotePlus(s[3..])
    else [s[0]] + UnquotePlus(s[1..])
  }

  predicate IsAscii(s: string)
  {
    forall i :: 0 <= i < |s| ==> s[i] as int < 128
  }

  /** The characters `quote_plus` leaves as they are. */
  predicate Unreserved(c: char)
  {
    'a' <= c <= 'z' || 'A' <= c <= 'Z' || '0' <= c <= '9' || c == '_' || c == '.' || c == '-' || c == '~'
  }

  function QuoteChar(c: char): string
    requires c as int < 128
  {
    if Unreserved(c) || c == '/' then [c]
    else if c == ' ' then "+"
    else ['%', HexDigit(c as int / 16), HexDigit(c as int % 16)]
  }

  /**
   * `urllib.parse.quote_plus(key, safe='/')` on ASCII text: the encoding
   * of object keys in S3 event notifications, where a space becomes `+`
   * and `/` is kept.
   */
  function QuotePlus(s: string): string
    requires IsAscii(s)
  {
    if s == [] then [] else QuoteChar(s[0]) + QuotePlus(s[1..])
  }

  lemma UnquoteQuoteChar(c: char, rest: string)
    requires c as int < 128
    ensures UnquotePlus(QuoteChar(c) + rest) == [c] + UnquotePlus(rest)
  {
    var w := QuoteChar(c) + rest;
    if !Unreserved(c) && c != '/' && c != ' ' {
      var v := c as int;
      assert w[0] == '%' && w[1] == HexDigit(v / 16) && w[2] == HexDigit(v % 16);
      assert HexValue(w[1]) * 16 + HexValue(w[2]) == v;
      assert w[3..] == rest;
    } else {
      assert w[1..] == rest;
    }
  }

  /** Decoding a key encoded as in an event notification gives the key back. */
  lemma {:induction false} UnquoteQuotePlus(s: string)
    requires IsAscii(s)
    ensures UnquotePlus(QuotePlus(s)) == s
  {
    if s != [] {
      UnquoteQuoteChar(s[0], QuotePlus(s[1..]));
      UnquoteQuotePlus(s[1..]);
    }
  }

  /** A key without `%` or `+` is left as it is. */
  lemma {:induction false} UnquotePlain(s: string)
    requires '%' !in s && '+' !in s
    ensures UnquotePlus(s) == s
  {
    if s != [] {
      UnquotePlain(s[1..]);
    }
  }

  // ---------------------------------------------------------------------
  // Event parameters

  const MaxListKeys: int := 100

  /**
   * `min(event.get('max_keys', 10), 100)`: a number above 100 becomes
   * 100; a boolean compares as 0 or 1; any other value makes the
   * comparison raise `TypeError`.
   */
  function ClampMaxKeys(event: map<string, Json>): Result<int, PyError>
  {
    match GetOr(event, "max_keys", JNum(10))
    case JNum(n) => Ok(if MaxListKeys < n then MaxListKeys else n)
    case JBool(b) => Ok(if b then 1 else 0)
    case _ => Err(TypeError)
  }

  lemma ClampMaxKeysSpec(event: map<string, Json>)
    ensures "max_keys" !in event ==> ClampMaxKeys(event) == Ok(10)
    ensures ClampMaxKeys(event).Ok? ==> ClampMaxKeys(event).value <= MaxListKeys
    ensures "max_keys" in event && event["max_keys"].JNum? ==>
      ClampMaxKeys(event) == Ok(if event["max_keys"].n <= MaxListKeys then event["max_keys"].n else MaxListKeys)
    ensures ClampMaxKeys(event).Err? <==>
      "max_keys" in event && !event["max_keys"].JNum? && !event["max_keys"].JBool?
  {
  }

  /** The ETag as listed, without its surrounding double quotes. */
  function StripETag(etag: string): string
  {
    Strip(etag, '"')
  }

  /** A stored ETag lists as the bare digest. */
  lemma StripQuotedETag(digest: string)
    requires '"' !in digest
    ensures StripETag(Quoted(digest)) == digest
  {
    StripWrapped(digest, '"');
  }

  // ---------------------------------------------------------------------
  // The sweep

  const SecondsPerDay: int := 86400

  /**
   * 2^1024 - 2^970: an integer at least this large in magnitude rounds
   * past the largest double, so subtracting it from a float timestamp
   * raises `OverflowError`.
   */
  const FloatOverflow: int :=
    0xFFFFFFFFFFFFFC00_0000000000000000_0000000000000000_0000000000000000_0000000000000000_0000000000000000_0000000000000000_0000000000000000_0000000000000000_0000000000000000_0000000000000000_0000000000000000_0000000000000000_0000000000000000_0000000000000000_0000000000000000

  /** The seconds in `days` days convert to a float, as the cutoff's subtraction from a timestamp needs. */
  predicate FitsFloat(days: int)
  {
    -FloatOverflow < days * SecondsPerDay < FloatOverflow
  }

  /**
   * `event.get('days_old', 7)` as it takes part in the arithmetic of the
   * cutoff: a number, or a boolean as 0 or 1; anything else raises
   * `TypeError`, and a number of seconds beyond the range of a float
   * raises `OverflowError`.
   */
  function DaysOld(event: map<string, Json>): Result<int, PyError>
  {
    match GetOr(event, "days_old", JNum(7))
    case JNum(n) => if FitsFloat(n) then Ok(n) else Err(OverflowError)
    case JBool(b) => Ok(if b then 1 else 0)
    case _ => Err(TypeError)
  }

  /**
   * `days_old` defaults to seven; a number is taken as it is unless its
   * seconds overflow a float; a value that is neither a number nor a
   * boolean raises `TypeError`.
   */
  lemma DaysOldSpec(event: map<string, Json>)
    ensures "days_old" !in event ==> DaysOld(event) == Ok(7)
    ensures "days_old" in event && event["days_old"].JNum? ==>
      && (DaysOld(event).Ok? <==> FitsFloat(event["days_old"].n))
      && (DaysOld(event).Ok? ==> DaysOld(event).value == event["days_old"].n)
    ensures DaysOld(event).Err? <==>
      "days_old" in event &&
      ((!event["days_old"].JNum? && !event["days_old"].JBool?) || (event["days_old"].JNum? && !FitsFloat(event["days_old"].n)))
    ensures DaysOld(event).Err? ==>
      DaysOld(event).error == (if event["days_old"].JNum? then OverflowError else TypeError)
  {
  }

  /** Any day count up to 2^64 in magnitude converts without overflow. */
  lemma SmallDaysFit(days: int)
    requires -0x1_0000_0000_0000_0000 <= days <= 0x1_0000_0000_0000_0000
    ensures FitsFloat(days)
  {
  }

  function Cutoff(now: int, daysOld: int): int
  {
    now - daysOld * SecondsPerDay
  }

  /** The keys of the listed objects modified strictly before the cutoff, in listing order. */
  function Candidates(objects: seq<Listed>, cutoff: int): (r: seq<string>)
    ensures |r| <= |objects|
  {
    if objects == [] then []
    else
      var last := objects[|objects| - 1];
      Candidates(objects[..|objects| - 1], cutoff) + (if last.lastModified < cutoff then [last.key] else [])
  }

  /**
   * Both directions of candidacy: every object older than the cutoff is
   * selected, and every selected key belongs to such an object; an
   * object modified exactly at the cutoff is not selected. The keys come
   * in listing order: the candidates of any prefix of the listing come
   * first, followed by those of the rest.
   */
  lemma {:induction false} CandidatesSpec(objects: seq<Listed>, cutoff: int)
    ensures forall i :: 0 <= i < |objects| && objects[i].lastModified < cutoff ==>
      objects[i].key in Candidates(objects, cutoff)
    ensures forall k :: k in Candidates(objects, cutoff) ==>
      exists i :: 0 <= i < |objects| && objects[i].key == k && objects[i].lastModified < cutoff
    ensures forall j :: 0 <= j <= |objects| ==>
      Candidates(objects, cutoff) == Candidates(objects[..j], cutoff) + Candidates(objects[j..], cutoff)
  {
    if objects != [] {
      var init := objects[..|objects| - 1];
      CandidatesSpec(init, cutoff);
      forall i | 0 <= i < |init| ensures init[i] == objects[i] {
      }
    }
    CandidatesSplit(objects, cutoff);
  }

  /** Cutting the listing anywhere cuts the candidates there. */
  lemma CandidatesSplit(objects: seq<Listed>, cutoff: int)
    ensures forall j :: 0 <= j <= |objects| ==>
      Candidates(objects, cutoff) == Candidates(objects[..j], cutoff) + Candidates(objects[j..], cutoff)
  {
    forall j | 0 <= j <= |objects|
      ensures Candidates(objects, cutoff) == Candidates(objects[..j], cutoff) + Candidates(objects[j..], cutoff)
    {
      CandidatesAppend(objects[..j], objects[j..], cutoff);
      assert objects[..j] + objects[j..] == objects;
    }
  }

  /** Selecting from a concatenated listing selects from each part, in order. */
  lemma {:induction false} CandidatesAppend(first: seq<Listed>, rest: seq<Listed>, cutoff: int)
    ensures Candidates(first + rest, cutoff) == Candidates(first, cutoff) + Candidates(rest, cutoff)
    decreases |rest|
  {
    if rest == [] {
      assert first + rest == first;
    } else {
      var init := rest[..|rest| - 1];
      assert (first + rest)[..|first + rest| - 1] == first + init;
      assert (first + rest)[|first + rest| - 1] == rest[|rest| - 1];
      CandidatesAppend(first, init, cutoff);
    }
  }

  /** An object modified exactly at the cutoff is kept. */
  lemma CutoffIsStrict(o: Listed, now: int, daysOld: int)
    requires o.lastModified == Cutoff(now, daysOld)
    ensures Candidates([o], Cutoff(now, daysOld)) == []
  {
    assert [o][..0] == [];
  }

  /** The loop that collects the sweep's candidates. */
  method CollectCandidates(objects: seq<Listed>, cutoff: int) returns (toDelete: seq<string>)
    ensures toDelete == Candidates(objects, cutoff)
  {
    toDelete := [];
    for i := 0 to |objects|
      invariant toDelete == Candidates(objects[..i], cutoff)
    {
      assert objects[..i + 1][..i] == objects[..i];
      if objects[i].lastModified < cutoff {
        toDelete := toDelete + [objects[i].key];
      }
    }
    assert objects[..|objects|] == objects;
  }

  /** `s[i:i+n]` for `i` in `range(0, len(s), n)`. */
  function Batches<T>(s: seq<T>, n: nat): (r: seq<seq<T>>)
    requires n > 0
    decreases |s|
  {
    if s == [] then []
    else if |s| <= n then [s]
    else [s[..n]] + Batches(s[n..], n)
  }

  function Flatten<T>(ss: seq<seq<T>>): seq<T>
  {
    if ss == [] then [] else ss[0] + Flatten(ss[1..])
  }

  /** The batches cover the sequence exactly once and in order. */
  lemma {:induction false} BatchesFlatten<T>(s: seq<T>, n: nat)
    requires n > 0
    ensures Flatten(Batches(s, n)) == s
    decreases |s|
  {
    if s != [] && |s| > n {
      BatchesFlatten(s[n..], n);
      var rest := Batches(s[n..], n);
      assert ([s[..n]] + rest)[1..] == rest;
      assert s[..n] + s[n..] == s;
    } else if s != [] {
      assert [s][1..] == [];
      assert s + [] == s;
    }
  }

  /** Each batch holds between 1 and `n` elements, and there are `ceil(|s| / n)` of them. */
  lemma {:induction false} BatchesSize<T>(s: seq<T>, n: nat)
    requires n > 0
    ensures forall b :: b in Batches(s, n) ==> 0 < |b| <= n
    ensures |Batches(s, n)| == (|s| + n - 1) / n
    decreases |s|
  {
    if s != [] && |s| > n {
      BatchesSize(s[n..], n);
      var rest := Batches(s[n..], n);
      assert Batches(s, n) == [s[..n]] + rest;
      CeilStep(|s[n..]|, n);
    } else if s != [] {
      assert (|s| + n - 1) / n == 1 by {
        assert n <= |s| + n - 1 < 2 * n;
      }
    }
  }

  lemma CeilStep(m: nat, n: nat)
    requires n > 0
    ensures (m + n + n - 1) / n == (m + n - 1) / n + 1
  {
    var x := m + n - 1;
    var q, r := x / n, x % n;
    assert x + n == (q + 1) * n + r;
    DivUnique(x + n, n, q + 1, r);
  }

  lemma DivUnique(x: int, n: int, q: int, r: int)
    requires n > 0 && 0 <= r < n && x == q * n + r
    ensures x / n == q
  {
    var q', r' := x / n, x % n;
    assert x == q' * n + r';
    var d := q' - q;
    assert d * n == q' * n - q * n;
    if d > 0 {
      MulAtLeast(d, n);
    } else if d < 0 {
      MulAtLeast(-d, n);
    }
  }

  lemma {:induction false} MulAtLeast(a: int, n: int)
    requires a >= 1 && n > 0
    ensures a * n >= n
    decreases a
  {
    if a > 1 {
      MulAtLeast(a - 1, n);
      assert a * n == (a - 1) * n + n;
    }
  }

  /** The preview: at most the first ten candidates. */
  function Preview(candidates: seq<string>): (r: seq<string>)
    ensures |r| == if |candidates| < 10 then |candidates| else 10
    ensures r == candidates[..|r|]
  {
    if |candidates| <= 10 then candidates else candidates[..10]
  }

  // ---------------------------------------------------------------------
  // Health aggregation

  predicate IsErrorStatus(status: string)
  {
    StartsWith(status, "error")
  }

  /** The status a probe records: `healthy`, or `error: ` and the failure. */
  function ProbeStatus(ok: bool, failure: string): (status: string)
    ensures ok <==> status == "healthy"
    ensures !ok ==> IsErrorStatus(status)
  {
    if ok then "healthy"
    else
      var status := "error: " + failure;
      assert status[0] != "healthy"[0];
      status
  }

  /**
   * `all(status == 'healthy' for status in statuses if not
   * status.startswith('error'))`: error statuses are filtered out first.
   */
  predicate AllHealthy(statuses: seq<string>)
  {
    forall i :: 0 <= i < |statuses| ==> IsErrorStatus(statuses[i]) || statuses[i] == "healthy"
  }

  /** The loop `all(...)` runs. */
  method CheckAllHealthy(statuses: seq<string>) returns (healthy: bool)
    ensures healthy == AllHealthy(statuses)
  {
    healthy := true;
    var i := 0;
    while i < |statuses|
      invariant 0 <= i <= |statuses|
      invariant healthy == AllHealthy(statuses[..i])
    {
      assert statuses[..i + 1] == statuses[..i] + [statuses[i]];
      if !IsErrorStatus(statuses[i]) && statuses[i] != "healthy" {
        healthy := false;
      }
      i := i + 1;
    }
    assert statuses[..i] == statuses;
  }

  /**
   * The aggregation degrades exactly when some status is neither
   * `healthy` nor an error; so an `unknown` status always degrades it,
   * while adding an error status never does.
   */
  lemma HealthAggregation(statuses: seq<string>, failure: string)
    ensures !AllHealthy(statuses) <==>
      exists i :: 0 <= i < |statuses| && !IsErrorStatus(statuses[i]) && statuses[i] != "healthy"
    ensures "unknown" in statuses ==> !AllHealthy(statuses)
    ensures AllHealthy(statuses + [ProbeStatus(false, failure)]) == AllHealthy(statuses)
    ensures !AllHealthy(statuses + ["unknown"])
  {
    UnknownIsNoError();
    if "unknown" in statuses {
      var i :| 0 <= i < |statuses| && statuses[i] == "unknown";
    }
    var more := statuses + [ProbeStatus(false, failure)];
    assert forall i :: 0 <= i < |statuses| ==> more[i] == statuses[i];
    var unknown := statuses + ["unknown"];
    assert unknown[|statuses|] == "unknown";
  }

  lemma UnknownIsNoError()
    ensures !IsErrorStatus("unknown")
  {
    assert "unknown"[..5][0] != "error"[0];
  }
}
