/**
  Which files of the migrations directory are loaded, in alphabetical order of their names.
*/
module MigrationFiles {
  import opened Shared
  import opened Strings
  import opened Migrations

  predicate IsDigit(c: char) { '0' <= c <= '9' }

  predicate AllDigits(t: string) { forall i | 0 <= i < |t| :: IsDigit(t[i]) }

  /** The number of leading digits. */
  function LeadingDigits(file: string): (d: nat)
    ensures d <= |file| && AllDigits(file[..d]) && (d < |file| ==> !IsDigit(file[d]))
  {
    if file == "" || !IsDigit(file[0]) then 0
    else
      var d := LeadingDigits(file[1..]);
      assert forall i | 0 < i < d + 1 :: file[i] == file[1..][..d][i - 1];
      d + 1
  }

  predicate IsSql(file: string) { |file| >= 4 && file[|file| - 4..] == ".sql" }

  predicate OneLine(t: string) { forall i | 0 <= i < |t| :: !LineBreak(t[i]) }

  predicate LineBreak(c: char) { c == '\n' || c == '\r' || c == '\U{2028}' || c == '\U{2029}' }

  /** Digits, an underscore, a description on one line, `.sql`: the length of the version, if the name has this form. */
  function VersionLength(file: string): (d: Option<nat>)
    ensures d.Some? ==> 0 < d.value && d.value + 6 <= |file| && AllDigits(file[..d.value]) && file[d.value] == '_'
  {
    var d := LeadingDigits(file);
    if IsSql(file) && 0 < d && d + 6 <= |file| && file[d] == '_' && OneLine(file[d + 1..|file| - 4]) then Some(d)
    else None
  }

  function Spaced(t: string): string { seq(|t|, i requires 0 <= i < |t| => if t[i] == '_' then ' ' else t[i]) }

  function Loaded(file: string, read: string -> string, checksum: string -> string): Migration
    requires VersionLength(file).Some?
  {
    var d := VersionLength(file).value;
    Migration(file[..d], Spaced(file[d + 1..|file| - 4]), file, read(file), checksum(read(file)))
  }

  /**
    `file` is `version`, an underscore, a text on one line whose underscores are the spaces of
    `description`, and `.sql`.
  */
  ghost predicate ReadsAs(file: string, version: string, description: string) {
    exists text: string :: Spells(file, version, text) && Respaced(text, description)
  }

  ghost predicate Spells(file: string, version: string, text: string) {
    && version != "" && AllDigits(version) && text != "" && OneLine(text)
    && file == version + "_" + text + ".sql"
  }

  ghost predicate Respaced(text: string, description: string) {
    && |text| == |description|
    && forall i | 0 <= i < |text| :: description[i] == if text[i] == '_' then ' ' else text[i]
  }

  lemma LoadedReadsAs(file: string, read: string -> string, checksum: string -> string)
    requires VersionLength(file).Some?
    ensures var m := Loaded(file, read, checksum); ReadsAs(file, m.version, m.description)
  {
    var d := VersionLength(file).value;
    var text := file[d + 1..|file| - 4];
    assert file == file[..d] + "_" + text + ".sql";
    assert Spells(file, file[..d], text) && Respaced(text, Spaced(text));
  }

  lemma {:induction false} DigitsLead(version: string, rest: string)
    requires AllDigits(version) && (rest == "" || !IsDigit(rest[0]))
    ensures LeadingDigits(version + rest) == |version|
  {
    if version == "" {
      assert version + rest == rest;
    } else {
      DigitsLead(version[1..], rest);
      assert (version + rest)[1..] == version[1..] + rest;
    }
  }

  /** Exactly the names of this form are loaded. */
  lemma NameForm(file: string)
    ensures VersionLength(file).Some? <==> exists version, text :: Spells(file, version, text)
    ensures forall version, text | Spells(file, version, text) :: VersionLength(file) == Some(|version|)
  {
    if VersionLength(file).Some? {
      LoadedReadsAs(file, t => t, t => t);
      var text: string :| Spells(file, file[..VersionLength(file).value], text);
    }
    forall version, text | Spells(file, version, text) ensures VersionLength(file) == Some(|version|) {
      DigitsLead(version, "_" + text + ".sql");
      assert file == version + ("_" + text + ".sql");
      assert file[|version| + 1..|file| - 4] == text;
    }
  }

  function Self(file: string): string { file }

  /** The names that have the form, in the order given. */
  function Named(files: seq<string>): seq<string> {
    if files == [] then []
    else (if VersionLength(files[0]).Some? then [files[0]] else []) + Named(files[1..])
  }

  lemma {:induction false} NamedSnoc(files: seq<string>, i: nat)
    requires i < |files|
    ensures Named(files[..i + 1]) == Named(files[..i]) + if VersionLength(files[i]).Some? then [files[i]] else []
    decreases i
  {
    if i > 0 {
      assert files[..i][1..] == files[1..][..i - 1] && files[..i + 1][1..] == files[1..][..i];
      NamedSnoc(files[1..], i - 1);
    }
  }

  lemma {:induction false} NamedMeans(files: seq<string>)
    ensures forall f :: f in Named(files) <==> f in files && VersionLength(f).Some?
  {
    if files != [] { NamedMeans(files[1..]); }
  }

  /** Filtering keeps the order. */
  lemma {:induction false} NamedAscending(files: seq<string>)
    requires Ascending(Self, files)
    ensures Ascending(Self, Named(files))
  {
    if files != [] {
      NamedAscending(files[1..]);
      NamedMeans(files[1..]);
      forall j | 0 <= j < |Named(files[1..])| ensures AtMost(files[0], Named(files[1..])[j]) {
        assert Named(files[1..])[j] in files[1..];
        var i :| 0 <= i < |files[1..]| && files[1..][i] == Named(files[1..])[j];
        assert AtMost(Self(files[0]), Self(files[i + 1]));
      }
    }
  }

  function FileOf(m: Migration): string { m.filename }

  /** `m` is what its file yields. */
  ghost predicate FromFile(m: Migration, read: string -> string, checksum: string -> string) {
    VersionLength(m.filename).Some? && m == Loaded(m.filename, read, checksum)
  }

  /** `ms` are the migrations of `names`, in their order. */
  ghost predicate AreLoaded(names: seq<string>, ms: seq<Migration>, read: string -> string,
                            checksum: string -> string) {
    |ms| == |names| && forall i | 0 <= i < |ms| :: FileOf(ms[i]) == names[i] && FromFile(ms[i], read, checksum)
  }

  lemma LoadedNames(files: seq<string>)
    ensures Ascending(Self, Named(SortBy(Self, files)))
    ensures forall f :: f in Named(SortBy(Self, files)) <==> f in files && VersionLength(f).Some?
  {
    var sorted := SortBy(Self, files);
    SortByOk(Self, files);
    NamedAscending(sorted);
    NamedMeans(sorted);
    forall f ensures f in sorted <==> f in files {
      assert f in files <==> f in multiset(files);
      assert f in sorted <==> f in multiset(sorted);
    }
  }

  /** `loadMigrationFiles`: one migration for each well-named file, in alphabetical order of the names. */
  method LoadMigrationFiles(files: seq<string>, read: string -> string, checksum: string -> string)
    returns (ms: seq<Migration>)
    ensures Ascending(FileOf, ms)
    ensures forall i | 0 <= i < |ms| :: FromFile(ms[i], read, checksum) && ms[i].filename in files
    ensures forall f | f in files && VersionLength(f).Some? :: exists i :: 0 <= i < |ms| && ms[i].filename == f
    ensures DistinctBy(Self, files) ==> DistinctBy(FileOf, ms)
    ensures forall i | 0 <= i < |ms| ::
      ms[i].content == read(ms[i].filename) && ms[i].checksum == checksum(ms[i].content)
    ensures forall i | 0 <= i < |ms| :: ReadsAs(ms[i].filename, ms[i].version, ms[i].description)
  {
    var sorted := SortBy(Self, files);
    ms := [];
    ghost var names := [];
    for i := 0 to |sorted|
      invariant names == Named(sorted[..i]) && AreLoaded(names, ms, read, checksum)
    {
      NamedSnoc(sorted, i);
      if VersionLength(sorted[i]).Some? {
        ms := ms + [Loaded(sorted[i], read, checksum)];
        names := names + [sorted[i]];
      }
    }
    assert sorted[..|sorted|] == sorted;
    LoadedNames(files);
    NamesOfLoaded(files, names, ms, read, checksum);
    forall i | 0 <= i < |ms| ensures ReadsAs(ms[i].filename, ms[i].version, ms[i].description) {
      LoadedReadsAs(ms[i].filename, read, checksum);
    }
    if DistinctBy(Self, files) {
      SortByDistinct(Self, files);
      NamedDistinct(sorted);
      forall i, j | 0 <= i < j < |ms| ensures FileOf(ms[i]) != FileOf(ms[j]) {
        assert FileOf(ms[i]) == names[i] && FileOf(ms[j]) == names[j] && Self(names[i]) != Self(names[j]);
      }
    }
  }

  /** Filtering doubles nothing. */
  lemma {:induction false} NamedDistinct(files: seq<string>)
    requires DistinctBy(Self, files)
    ensures DistinctBy(Self, Named(files))
  {
    if files != [] {
      NamedDistinct(files[1..]);
      NamedMeans(files[1..]);
      forall j | 0 <= j < |Named(files[1..])| ensures Named(files[1..])[j] != files[0] {
        assert Named(files[1..])[j] in files[1..];
        var i :| 0 <= i < |files[1..]| && files[1..][i] == Named(files[1..])[j];
        assert Self(files[0]) != Self(files[i + 1]);
      }
    }
  }

  lemma NamesOfLoaded(files: seq<string>, names: seq<string>, ms: seq<Migration>, read: string -> string,
                      checksum: string -> string)
    requires AreLoaded(names, ms, read, checksum) && Ascending(Self, names)
    requires forall f :: f in names <==> f in files && VersionLength(f).Some?
    ensures Ascending(FileOf, ms)
    ensures forall i | 0 <= i < |ms| :: FromFile(ms[i], read, checksum) && ms[i].filename in files
    ensures forall f | f in files && VersionLength(f).Some? :: exists i :: 0 <= i < |ms| && ms[i].filename == f
  {
    forall i, j | 0 <= i < j < |ms| ensures AtMost(FileOf(ms[i]), FileOf(ms[j])) {
      assert AtMost(Self(names[i]), Self(names[j]));
    }
    forall i | 0 <= i < |ms| ensures ms[i].filename in files { assert FileOf(ms[i]) == names[i]; }
    forall f | f in files && VersionLength(f).Some? ensures exists i :: 0 <= i < |ms| && ms[i].filename == f {
      var i :| 0 <= i < |names| && names[i] == f;
      assert FileOf(ms[i]) == names[i];
    }
  }
}
