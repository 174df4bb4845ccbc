/**
 * The reader of the instance's Admin/Startup.txt, which `Server.LoadConfig` and
 * `ServerWindow.LoadConfig` both implement: every line that is not a comment and
 * has at least two words adds its first word as a key and its second word, with
 * the double quotes removed, as the value. A key met twice makes `Dictionary.Add`
 * throw, leaving the dictionary with the entries read before it.
 */
module StartupConfig {
  import opened Wrappers
  import opened Text
  import opened Utility
  import opened Host

  /** The key whose value is the RCON password; `Start` and `StartServer` read it. */
  const ADMIN_PASSWORD: string := "admin.password"

  /** What one line adds to the configuration, if anything. */
  function ConfigEntry(line: string): (r: Option<(string, string)>)
    ensures StartsWith(line, "#") ==> r.None?
    ensures r.Some? ==> r.value.0 != [] && '"' !in r.value.1
  {
    if StartsWith(line, "#") then None
    else
      var parts := SplitStringBySpace(line);
      if |parts| >= 2 then Some((parts[0], Without(parts[1], '"'))) else None
  }

  /** The entries of the lines, in file order. */
  function Entries(lines: seq<string>): (es: seq<(string, string)>)
    ensures |es| <= |lines|
  {
    if lines == [] then []
    else
      (match ConfigEntry(lines[0]) case None => [] case Some(e) => [e]) + Entries(lines[1..])
  }

  /** The keys the entries give. */
  function EntryKeys(es: seq<(string, string)>): set<string>
  {
    if es == [] then {} else {es[0].0} + EntryKeys(es[1..])
  }

  predicate DistinctKeys(es: seq<(string, string)>)
  {
    forall i, j :: 0 <= i < j < |es| ==> es[i].0 != es[j].0
  }

  /** The outcome of reading a file: the dictionary, or the key added twice and the dictionary as it stood then. */
  datatype ConfigLoad = Loaded(config: map<string, string>) | Duplicate(key: string, partial: map<string, string>)

  /** Adding the entries of `lines` to `config`, one line at a time. */
  function LoadEntries(config: map<string, string>, lines: seq<string>): ConfigLoad
    decreases |lines|
  {
    if lines == [] then Loaded(config)
    else
      match ConfigEntry(lines[0])
      case None => LoadEntries(config, lines[1..])
      case Some((k, v)) =>
        if k in config then Duplicate(k, config) else LoadEntries(config[k := v], lines[1..])
  }

  /** The dictionary the file yields, starting from a fresh one. */
  function ParseConfig(lines: seq<string>): ConfigLoad
  {
    LoadEntries(map[], lines)
  }

  /**
   * Adding succeeds exactly when the entries' keys are distinct and new to `config`; the
   * dictionary then holds the old entries and every entry read, and nothing else; a
   * duplicate is a key the dictionary already held.
   */
  lemma LoadEntriesMeaning(config: map<string, string>, lines: seq<string>)
    ensures var r, es := LoadEntries(config, lines), Entries(lines);
      && (r.Loaded? <==> DistinctKeys(es) && forall i | 0 <= i < |es| :: es[i].0 !in config)
      && (r.Loaded? ==> forall i | 0 <= i < |es| :: es[i].0 in r.config && r.config[es[i].0] == es[i].1)
      && (r.Loaded? ==> forall k | k in config :: k in r.config && r.config[k] == config[k])
      && (r.Loaded? ==> |r.config| == |config| + |es|)
      && (r.Loaded? ==> r.config.Keys == config.Keys + EntryKeys(es))
      && (r.Duplicate? ==> r.key in r.partial && config.Keys <= r.partial.Keys)
  {
    LoadedExactly(config, lines);
    LoadedContents(config, lines);
    LoadedKeys(config, lines);
  }

  /** When adding succeeds, and what a duplicate leaves behind. */
  lemma {:induction false} LoadedExactly(config: map<string, string>, lines: seq<string>)
    ensures var r, es := LoadEntries(config, lines), Entries(lines);
      && (r.Loaded? <==> DistinctKeys(es) && forall i | 0 <= i < |es| :: es[i].0 !in config)
      && (r.Duplicate? ==> r.key in r.partial && config.Keys <= r.partial.Keys)
    decreases |lines|
  {
    if lines != [] {
      var rest := Entries(lines[1..]);
      match ConfigEntry(lines[0])
      case None =>
        assert Entries(lines) == rest;
        LoadedExactly(config, lines[1..]);
      case Some((k, v)) =>
        var es := Entries(lines);
        assert es == [(k, v)] + rest;
        if k !in config {
          LoadedExactly(config[k := v], lines[1..]);
          FreshKeysCons(config, k, v, rest);
        } else {
          assert es[0].0 in config;
        }
    }
  }

  /** What the dictionary holds when adding succeeds. */
  lemma {:induction false} LoadedContents(config: map<string, string>, lines: seq<string>)
    ensures var r, es := LoadEntries(config, lines), Entries(lines);
      && (r.Loaded? ==> forall i | 0 <= i < |es| :: es[i].0 in r.config && r.config[es[i].0] == es[i].1)
      && (r.Loaded? ==> forall k | k in config :: k in r.config && r.config[k] == config[k])
      && (r.Loaded? ==> |r.config| == |config| + |es|)
    decreases |lines|
  {
    if lines != [] {
      var rest := Entries(lines[1..]);
      match ConfigEntry(lines[0])
      case None =>
        assert Entries(lines) == rest;
        assert LoadEntries(config, lines) == LoadEntries(config, lines[1..]);
        LoadedContents(config, lines[1..]);
      case Some((k, v)) =>
        var es := Entries(lines);
        assert es == [(k, v)] + rest;
        var r := LoadEntries(config, lines);
        if k !in config && r.Loaded? {
          assert r == LoadEntries(config[k := v], lines[1..]);
          LoadedContents(config[k := v], lines[1..]);
          LoadedContentsCons(config, k, v, rest, r.config);
        }
    }
  }

  /** What `LoadedContents` states for the entries after a fresh key `k` carries over to `k` and them. */
  lemma LoadedContentsCons(config: map<string, string>, k: string, v: string, rest: seq<(string, string)>, result: map<string, string>)
    requires k !in config
    requires forall i | 0 <= i < |rest| :: rest[i].0 in result && result[rest[i].0] == rest[i].1
    requires forall key | key in config[k := v] :: key in result && result[key] == config[k := v][key]
    requires |result| == |config[k := v]| + |rest|
    ensures var es := [(k, v)] + rest;
      && (forall i | 0 <= i < |es| :: es[i].0 in result && result[es[i].0] == es[i].1)
      && (forall key | key in config :: key in result && result[key] == config[key])
      && |result| == |config| + |es|
  {
    var es := [(k, v)] + rest;
    forall i | 0 <= i < |es| ensures es[i].0 in result && result[es[i].0] == es[i].1 {
      if i > 0 { assert es[i] == rest[i - 1]; }
    }
  }

  /** When adding succeeds, the dictionary's keys are the old keys and the entries' keys, and no others. */
  lemma {:induction false} LoadedKeys(config: map<string, string>, lines: seq<string>)
    ensures var r := LoadEntries(config, lines);
      r.Loaded? ==> r.config.Keys == config.Keys + EntryKeys(Entries(lines))
    decreases |lines|
  {
    if lines != [] {
      var rest := Entries(lines[1..]);
      match ConfigEntry(lines[0])
      case None =>
        assert Entries(lines) == rest;
        LoadedKeys(config, lines[1..]);
      case Some((k, v)) =>
        var es := Entries(lines);
        assert es == [(k, v)] + rest;
        assert es[1..] == rest;
        if k !in config {
          LoadedKeys(config[k := v], lines[1..]);
        }
    }
  }

  /** `config` with the entries added in order, each key taking its value. */
  function AddAll(config: map<string, string>, es: seq<(string, string)>): map<string, string>
    decreases |es|
  {
    if es == [] then config else AddAll(config[es[0].0 := es[0].1], es[1..])
  }

  /**
   * `Add` throws at the FIRST entry whose key is already present: the entries before it have
   * distinct keys new to `config`, its own key is one of `config`'s or one of theirs, and the
   * dictionary left behind is `config` with exactly those earlier entries added.
   */
  lemma {:induction false} DuplicateIsFirst(config: map<string, string>, lines: seq<string>) returns (j: nat)
    requires LoadEntries(config, lines).Duplicate?
    ensures var r, es := LoadEntries(config, lines), Entries(lines);
      && j < |es| && r.key == es[j].0
      && DistinctKeys(es[..j]) && (forall i | 0 <= i < j :: es[i].0 !in config)
      && (es[j].0 in config || es[j].0 in EntryKeys(es[..j]))
      && r.partial == AddAll(config, es[..j])
    decreases |lines|
  {
    var rest := Entries(lines[1..]);
    match ConfigEntry(lines[0])
    case None =>
      assert Entries(lines) == rest;
      assert LoadEntries(config, lines) == LoadEntries(config, lines[1..]);
      j := DuplicateIsFirst(config, lines[1..]);
    case Some((k, v)) =>
      assert Entries(lines) == [(k, v)] + rest;
      if k in config {
        assert LoadEntries(config, lines) == Duplicate(k, config);
        j := 0;
        assert Entries(lines)[..0] == [];
      } else {
        assert LoadEntries(config, lines) == LoadEntries(config[k := v], lines[1..]);
        var j' := DuplicateIsFirst(config[k := v], lines[1..]);
        j := j' + 1;
        DuplicateAfterFreshKey(config, k, v, rest, j');
      }
  }

  /** The throwing entry `j'` of the entries after a fresh key `k` is entry `j' + 1` once `k` is added in front. */
  lemma DuplicateAfterFreshKey(config: map<string, string>, k: string, v: string, rest: seq<(string, string)>, j': nat)
    requires k !in config && j' < |rest|
    requires DistinctKeys(rest[..j']) && (forall i | 0 <= i < j' :: rest[i].0 !in config[k := v])
    requires rest[j'].0 in config[k := v] || rest[j'].0 in EntryKeys(rest[..j'])
    ensures var es := [(k, v)] + rest;
      && j' + 1 < |es| && es[j' + 1] == rest[j']
      && DistinctKeys(es[..j' + 1]) && (forall i | 0 <= i < j' + 1 :: es[i].0 !in config)
      && (es[j' + 1].0 in config || es[j' + 1].0 in EntryKeys(es[..j' + 1]))
      && AddAll(config, es[..j' + 1]) == AddAll(config[k := v], rest[..j'])
  {
    var es := [(k, v)] + rest;
    var before := es[..j' + 1];
    assert before == [(k, v)] + rest[..j'];
    FreshKeysCons(config, k, v, rest[..j']);
    assert before[1..] == rest[..j'];
    forall i | 0 <= i < j' + 1 ensures es[i].0 !in config {
      assert es[i] == before[i];
    }
  }

  /** Adding an entry whose key is new keeps the keys of the entries after it new and distinct, and only then. */
  lemma FreshKeysCons(config: map<string, string>, k: string, v: string, rest: seq<(string, string)>)
    requires k !in config
    ensures var es := [(k, v)] + rest;
      (DistinctKeys(es) && forall i | 0 <= i < |es| :: es[i].0 !in config)
      <==> (DistinctKeys(rest) && forall i | 0 <= i < |rest| :: rest[i].0 !in config[k := v])
  {
    var es := [(k, v)] + rest;
    if DistinctKeys(es) && forall i | 0 <= i < |es| :: es[i].0 !in config {
      forall i | 0 <= i < |rest| ensures rest[i].0 !in config[k := v] {
        assert es[0].0 != es[i + 1].0 && es[i + 1] == rest[i];
      }
      forall i, j | 0 <= i < j < |rest| ensures rest[i].0 != rest[j].0 {
        assert es[i + 1] == rest[i] && es[j + 1] == rest[j];
      }
    }
    if DistinctKeys(rest) && forall i | 0 <= i < |rest| :: rest[i].0 !in config[k := v] {
      forall i | 0 <= i < |es| ensures es[i].0 !in config {
        if i > 0 { assert es[i] == rest[i - 1]; }
      }
      forall i, j | 0 <= i < j < |es| ensures es[i].0 != es[j].0 {
        assert es[j] == rest[j - 1];
        if i > 0 { assert es[i] == rest[i - 1]; }
      }
    }
  }

  /**
   * Reading a file succeeds exactly when no key is repeated; the dictionary then maps every
   * entry's key to its value and has one key per entry.
   */
  lemma ParseConfigMeaning(lines: seq<string>)
    ensures var r, es := ParseConfig(lines), Entries(lines);
      && (r.Loaded? <==> DistinctKeys(es))
      && (r.Loaded? ==> |r.config| == |es| && forall i | 0 <= i < |es| :: es[i].0 in r.config && r.config[es[i].0] == es[i].1)
      && (r.Loaded? ==> r.config.Keys == EntryKeys(es))
      && (r.Duplicate? ==> r.key in r.partial)
  {
    LoadEntriesMeaning(map[], lines);
  }

  /** A comment line or a line of fewer than two words leaves the outcome of the rest of the file as it is. */
  lemma SkippedLine(config: map<string, string>, line: string, lines: seq<string>)
    requires StartsWith(line, "#") || |SplitStringBySpace(line)| < 2
    ensures LoadEntries(config, [line] + lines) == LoadEntries(config, lines)
  {
    assert ([line] + lines)[1..] == lines;
  }

  /** In particular a blank line, empty or all spaces, is skipped. */
  lemma BlankLineSkipped(config: map<string, string>, line: string, lines: seq<string>)
    requires forall k | 0 <= k < |line| :: line[k] == ' '
    ensures LoadEntries(config, [line] + lines) == LoadEntries(config, lines)
  {
    EmptyTokenListIffBlank(line);
    SkippedLine(config, line, lines);
  }

  /** `LoadConfig`'s loop: the lines in order, `continue` on a comment, `Add` for a line of two or more words. */
  method ReadStartupFile(lines: seq<string>) returns (config: map<string, string>, fault: Option<Fault>)
    ensures fault.None? ==> ParseConfig(lines) == Loaded(config)
    ensures fault.Some? ==> fault.value.DuplicateKey? && ParseConfig(lines) == Duplicate(fault.value.key, config)
  {
    config := map[];
    var i := 0;
    while i < |lines|
      invariant 0 <= i <= |lines|
      invariant LoadEntries(config, lines[i..]) == ParseConfig(lines)
    {
      assert lines[i..][1..] == lines[i + 1..];
      var line := lines[i];
      if StartsWith(line, "#") {
        i := i + 1;
        continue;
      }
      var parts := SplitStringBySpace(line);
      if |parts| >= 2 {
        if parts[0] in config {
          return config, Some(DuplicateKey(parts[0]));
        }
        config := config[parts[0] := Without(parts[1], '"')];
      }
      i := i + 1;
    }
    return config, None;
  }
}
