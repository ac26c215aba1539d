/**
 * The hub's connection-string format: `Key=Value` settings separated by `;`,
 * with no escaping. `Join` lays settings out the way the plugin writes them;
 * `Parse` reads them back the way a consumer splits them, and the round trip
 * holds for a non-empty list whenever no key holds `=` or `;` and no value
 * holds `;`.
 */
module ConnectionString {
  import opened Wrappers

  /** One `Key=Value` setting. */
  datatype Setting = Setting(key: string, value: string)

  function Render(t: Setting): string {
    t.key + "=" + t.value
  }

  /** The settings rendered and separated by `;` (a single setting has no separator). */
  function Join(ss: seq<Setting>): string {
    if |ss| == 0 then ""
    else if |ss| == 1 then Render(ss[0])
    else Render(ss[0]) + ";" + Join(ss[1..])
  }

  /** A setting the format can carry without ambiguity. */
  predicate WellFormed(t: Setting) {
    '=' !in t.key && ';' !in t.key && ';' !in t.value
  }

  predicate AllWellFormed(ss: seq<Setting>) {
    forall i :: 0 <= i < |ss| ==> WellFormed(ss[i])
  }

  lemma AllWellFormedAppend(a: seq<Setting>, b: seq<Setting>)
    requires AllWellFormed(a) && AllWellFormed(b)
    ensures AllWellFormed(a + b)
  {
  }

  /** `s` cut at every `sep`; like Go's `strings.Split`, the result is never empty. */
  function Split(s: string, sep: char): (parts: seq<string>)
    ensures |parts| > 0
    ensures sep !in s ==> parts == [s]
  {
    if |s| == 0 then [""]
    else
      var rest := Split(s[1..], sep);
      assert [s[0]] + s[1..] == s;
      if s[0] == sep then [""] + rest
      else [[s[0]] + rest[0]] + rest[1..]
  }

  /** A setting read back: the key runs up to the first `=`, the value is everything after it. */
  function ParseSetting(part: string): Setting {
    if |part| == 0 then Setting("", "")
    else if part[0] == '=' then Setting("", part[1..])
    else
      var rest := ParseSetting(part[1..]);
      Setting([part[0]] + rest.key, rest.value)
  }

  function ParseAll(parts: seq<string>): (ss: seq<Setting>)
    ensures |ss| == |parts|
    ensures forall i :: 0 <= i < |parts| ==> ss[i] == ParseSetting(parts[i])
  {
    if |parts| == 0 then [] else [ParseSetting(parts[0])] + ParseAll(parts[1..])
  }

  function Parse(s: string): seq<Setting> {
    ParseAll(Split(s, ';'))
  }

  /** The value of the first setting named `key`, if there is one. */
  function Lookup(ss: seq<Setting>, key: string): Option<string> {
    if |ss| == 0 then None
    else if ss[0].key == key then Some(ss[0].value)
    else Lookup(ss[1..], key)
  }

  /** Appending a setting appends `;Key=Value` to the joined string. */
  lemma {:induction false} JoinSnoc(ss: seq<Setting>, t: Setting)
    requires |ss| > 0
    ensures Join(ss + [t]) == Join(ss) + ";" + Render(t)
  {
    if |ss| == 1 {
      assert ss + [t] == [ss[0], t];
      assert [ss[0], t][1..] == [t];
    } else {
      assert (ss + [t])[1..] == ss[1..] + [t];
      JoinSnoc(ss[1..], t);
    }
  }

  /** The plugin's way of appending a setting: the text `;Key=` and then the value. */
  lemma JoinAppend(ss: seq<Setting>, conn: string, segment: string, t: Setting)
    requires |ss| > 0 && conn == Join(ss)
    requires segment == ";" + t.key + "="
    ensures conn + (segment + t.value) == Join(ss + [t])
  {
    JoinSnoc(ss, t);
    AppendAssoc(conn, segment, t);
  }

  /** Proof step for JoinAppend, kept apart because its proof is costly next to `Join`. */
  lemma AppendAssoc(conn: string, segment: string, t: Setting)
    requires segment == ";" + t.key + "="
    ensures conn + (segment + t.value) == conn + ";" + Render(t)
  {
    assert segment + t.value == ";" + Render(t);
  }

  /** Looking a key up in two lists of settings looks in the first, then the second. */
  lemma {:induction false} LookupAppend(a: seq<Setting>, b: seq<Setting>, key: string)
    ensures Lookup(a + b, key) == if Lookup(a, key).Some? then Lookup(a, key) else Lookup(b, key)
  {
    if |a| > 0 {
      assert (a + b)[1..] == a[1..] + b;
      LookupAppend(a[1..], b, key);
    } else {
      assert a + b == b;
    }
  }

  /** A joined string starts with the first setting, rendered. */
  lemma JoinStartsWith(ss: seq<Setting>)
    requires |ss| > 0
    ensures Render(ss[0]) <= Join(ss)
  {
  }

  lemma {:induction false} SplitAt(a: string, b: string, sep: char)
    requires sep !in a
    ensures Split(a + [sep] + b, sep) == [a] + Split(b, sep)
  {
    if |a| == 0 {
      assert a + [sep] + b == [sep] + b;
      assert ([sep] + b)[1..] == b;
    } else {
      assert (a + [sep] + b)[1..] == a[1..] + [sep] + b;
      SplitAt(a[1..], b, sep);
      assert [a[0]] + a[1..] == a;
    }
  }

  lemma {:induction false} ParseRender(t: Setting)
    requires '=' !in t.key
    ensures ParseSetting(Render(t)) == t
    decreases |t.key|
  {
    if |t.key| == 0 {
      assert Render(t) == ['='] + t.value;
      assert Render(t)[1..] == t.value;
    } else {
      var t' := Setting(t.key[1..], t.value);
      assert Render(t)[1..] == Render(t');
      ParseRender(t');
      assert [t.key[0]] + t.key[1..] == t.key;
    }
  }

  /** Splitting a joined string at `;` gives back each rendered setting. */
  lemma {:induction false} SplitJoin(ss: seq<Setting>)
    requires |ss| > 0 && AllWellFormed(ss)
    ensures |Split(Join(ss), ';')| == |ss|
    ensures forall i :: 0 <= i < |ss| ==> Split(Join(ss), ';')[i] == Render(ss[i])
  {
    assert ';' !in Render(ss[0]);
    if |ss| > 1 {
      assert Join(ss) == Render(ss[0]) + [';'] + Join(ss[1..]);
      SplitAt(Render(ss[0]), Join(ss[1..]), ';');
      SplitJoin(ss[1..]);
    }
  }

  /** Round trip: parsing a joined string of well-formed settings gives the settings back. */
  lemma ParseJoin(ss: seq<Setting>)
    requires |ss| > 0 && AllWellFormed(ss)
    ensures Parse(Join(ss)) == ss
  {
    SplitJoin(ss);
    forall i | 0 <= i < |ss| ensures Parse(Join(ss))[i] == ss[i] {
      ParseRender(ss[i]);
    }
  }
}
