/** The naming scheme of stored artifacts: `{directory}/{phase_id}-{sequence}.json`. */
module Names {
  import opened Graph
  import opened State

  function Digit(d: nat): char
    requires d < 10
  {
    '0' + d as char
  }

  /** Decimal notation, as Python formats a non-negative integer. */
  function Decimal(n: nat): (s: string)
    ensures s != []
    ensures forall i :: 0 <= i < |s| ==> '0' <= s[i] <= '9'
  {
    if n < 10 then [Digit(n)] else Decimal(n / 10) + [Digit(n % 10)]
  }

  lemma {:induction false} DecimalInjective(m: nat, n: nat)
    requires Decimal(m) == Decimal(n)
    ensures m == n
  {
    var a, b := Decimal(m), Decimal(n);
    assert a[|a| - 1] == Digit(m % 10) && b[|b| - 1] == Digit(n % 10);
    if m < 10 || n < 10 {
      assert |a| == 1;
    } else {
      assert a[..|a| - 1] == Decimal(m / 10) && b[..|b| - 1] == Decimal(n / 10);
      DecimalInjective(m / 10, n / 10);
    }
  }

  /** The number a run of digits stands for. */
  function Value(digits: string): int {
    if digits == "" then 0
    else 10 * Value(digits[..|digits| - 1]) + (digits[|digits| - 1] as int - '0' as int)
  }

  lemma {:induction false} DecimalReadsBack(n: nat)
    ensures Value(Decimal(n)) == n
    ensures n > 0 ==> Decimal(n)[0] != '0'
  {
    var s := Decimal(n);
    if n < 10 {
      assert s[..|s| - 1] == "";
    } else {
      DecimalReadsBack(n / 10);
      assert s[..|s| - 1] == Decimal(n / 10);
      assert s[0] == Decimal(n / 10)[0];
    }
  }

  function FileName(id: PhaseId, sequence: nat): string {
    id + "-" + Decimal(sequence) + ".json"
  }

  // ---- Joining paths --------------------------------------------------------------------------

  /** The parts of a relative path that `pathlib` keeps: empty and "." components are dropped. */
  function Components(path: string): seq<string> {
    ComponentsFrom(path, [])
  }

  function ComponentsFrom(path: string, current: string): seq<string>
    decreases |path|
  {
    if path == [] then Kept(current)
    else if path[0] == '/' then Kept(current) + ComponentsFrom(path[1..], [])
    else ComponentsFrom(path[1..], current + [path[0]])
  }

  function Kept(component: string): seq<string> {
    if component == "" || component == "." then [] else [component]
  }

  function Join(parts: seq<string>): string {
    if parts == [] then "" else "/" + parts[0] + Join(parts[1..])
  }

  /** An absolute path; two leading slashes are kept, any other number counts as one. */
  function Rooted(file: string): Ref {
    (if |file| > 1 && file[1] == '/' && !(|file| > 2 && file[2] == '/') then "/" else "") + Join(Components(file))
  }

  predicate Relative(path: string) { path == "" || path[0] != '/' }

  /** `(Path(directory) / file).as_posix()`: an absolute file name discards the directory. */
  function InDirectory(directory: string, file: string): Ref {
    if Relative(file) then directory + Join(Components(file)) else Rooted(file)
  }

  function HandoffName(id: PhaseId, sequence: nat): Ref { InDirectory("handoffs", FileName(id, sequence)) }

  function DecisionName(id: PhaseId, sequence: nat): Ref { InDirectory("decisions", FileName(id, sequence)) }

  /** What pathlib makes of an id in front of `-{n}.json`: the directories it names, and its last part. */
  datatype Path = Path(directories: seq<string>, last: string)

  function Normal(id: PhaseId): Path { NormalFrom(id, []) }

  function NormalFrom(path: string, current: string): Path
    decreases |path|
  {
    if path == [] then Path([], current)
    else if path[0] == '/' then
      var rest := NormalFrom(path[1..], []);
      Path(Kept(current) + rest.directories, rest.last)
    else NormalFrom(path[1..], current + [path[0]])
  }

  predicate SlashFree(parts: seq<string>) {
    forall i :: 0 <= i < |parts| ==> '/' !in parts[i]
  }

  // ---- When two ids share a file --------------------------------------------------------------

  lemma {:induction false} NoSlashOneComponent(path: string, current: string)
    requires '/' !in path
    ensures ComponentsFrom(path, current) == Kept(current + path)
    decreases |path|
  {
    if path == [] {
      assert current + path == current;
    } else {
      assert (current + [path[0]]) + path[1..] == current + path;
      NoSlashOneComponent(path[1..], current + [path[0]]);
    }
  }

  lemma {:induction false} NameComponents(path: string, current: string, suffix: string)
    requires '/' !in suffix && |suffix| > 1
    ensures var p := NormalFrom(path, current);
            ComponentsFrom(path + suffix, current) == p.directories + [p.last + suffix]
    decreases |path|
  {
    if path == [] {
      assert path + suffix == suffix;
      NoSlashOneComponent(suffix, current);
    } else {
      assert (path + suffix)[1..] == path[1..] + suffix;
      if path[0] == '/' {
        NameComponents(path[1..], [], suffix);
        var rest := NormalFrom(path[1..], []);
        assert Kept(current) + (rest.directories + [rest.last + suffix]) ==
               (Kept(current) + rest.directories) + [rest.last + suffix];
      } else {
        NameComponents(path[1..], current + [path[0]], suffix);
      }
    }
  }

  lemma {:induction false} NormalIsSlashFree(path: string, current: string)
    requires '/' !in current
    ensures SlashFree(NormalFrom(path, current).directories) && '/' !in NormalFrom(path, current).last
    decreases |path|
  {
    if path != [] {
      if path[0] == '/' {
        NormalIsSlashFree(path[1..], []);
      } else {
        NormalIsSlashFree(path[1..], current + [path[0]]);
      }
    }
  }

  predicate EndsPart(s: string) { s == "" || s[0] == '/' }

  lemma FirstPart(x: string, s: string, y: string, t: string)
    requires '/' !in x && '/' !in y && EndsPart(s) && EndsPart(t) && x + s == y + t
    ensures x == y && s == t
  {
    NotShorter(x, s, y, t);
    NotShorter(y, t, x, s);
    assert x == (x + s)[..|x|] && y == (y + t)[..|y|];
    assert s == (x + s)[|x|..] && t == (y + t)[|y|..];
  }

  lemma NotShorter(x: string, s: string, y: string, t: string)
    requires '/' !in y && EndsPart(s) && x + s == y + t
    ensures |y| <= |x|
  {
    var whole := x + s;
    assert forall i :: 0 <= i < |y| ==> whole[i] == y[i];
    assert s != "" ==> whole[|x|] == '/';
  }

  lemma {:induction false} JoinInjective(a: seq<string>, b: seq<string>)
    requires SlashFree(a) && SlashFree(b) && Join(a) == Join(b)
    ensures a == b
  {
    if a != [] && b != [] {
      var x, y := Join(a[1..]), Join(b[1..]);
      assert Join(a)[1..] == a[0] + x && Join(b)[1..] == b[0] + y;
      FirstPart(a[0], x, b[0], y);
      JoinInjective(a[1..], b[1..]);
      assert a == [a[0]] + a[1..] && b == [b[0]] + b[1..];
    }
  }

  function Suffix(sequence: nat): string { "-" + Decimal(sequence) + ".json" }

  lemma SuffixIsPlain(sequence: nat)
    ensures '/' !in Suffix(sequence) && |Suffix(sequence)| > 1
  {
    assert forall i :: 0 <= i < |Decimal(sequence)| ==> Decimal(sequence)[i] != '/';
  }

  /** The name of an artifact in terms of the normal path of its phase. */
  lemma NameOf(directory: string, id: PhaseId, sequence: nat)
    requires Relative(id)
    ensures InDirectory(directory, FileName(id, sequence)) ==
            directory + Join(Normal(id).directories + [FileName(Normal(id).last, sequence)])
    ensures SlashFree(Normal(id).directories + [FileName(Normal(id).last, sequence)])
  {
    var p, suffix := Normal(id), Suffix(sequence);
    SuffixIsPlain(sequence);
    assert FileName(id, sequence) == id + suffix && FileName(p.last, sequence) == p.last + suffix;
    NameComponents(id, [], suffix);
    NormalIsSlashFree(id, []);
  }

  /** The file of an artifact of a phase whose id has no slash. */
  lemma {:induction false} PlainNames(id: PhaseId, sequence: nat)
    requires '/' !in id
    ensures HandoffName(id, sequence) == "handoffs" + ("/" + (id + "-" + Decimal(sequence) + ".json"))
    ensures DecisionName(id, sequence) == "decisions" + ("/" + (id + "-" + Decimal(sequence) + ".json"))
  {
    hide Decimal;
    var suffix := Suffix(sequence);
    SuffixIsPlain(sequence);
    assert FileName(id, sequence) == id + suffix;
    NoSlashOneComponent(id + suffix, []);
    assert [] + (id + suffix) == id + suffix;
    JoinOne(id + suffix);
  }

  lemma JoinOne(part: string)
    ensures Join([part]) == "/" + part
  {
    assert [part][1..] == [];
    assert ("/" + part) + "" == "/" + part;
  }

  /** A stem and a run of digits are recovered from `stem-digits`, even when the stem itself holds dashes. */
  lemma LastDash(a: string, d: string, b: string, e: string)
    requires forall i :: 0 <= i < |d| ==> '0' <= d[i] <= '9'
    requires forall i :: 0 <= i < |e| ==> '0' <= e[i] <= '9'
    requires a + "-" + d == b + "-" + e
    ensures a == b && d == e
  {
    var s, t := a + "-" + d, b + "-" + e;
    assert s[|a|] == '-' && t[|b|] == '-';
    assert |a| == |b|;
    assert s[..|a|] == a && t[..|b|] == b;
    assert s[|a| + 1..] == d && t[|b| + 1..] == e;
  }

  lemma FileNameInjective(id: PhaseId, m: nat, other: PhaseId, n: nat)
    requires FileName(id, m) == FileName(other, n)
    ensures id == other && m == n
  {
    var s, t := id + "-" + Decimal(m), other + "-" + Decimal(n);
    assert FileName(id, m) == s + ".json" && FileName(other, n) == t + ".json";
    assert s == FileName(id, m)[..|s|] && t == FileName(other, n)[..|t|];
    LastDash(id, Decimal(m), other, Decimal(n));
    DecimalInjective(m, n);
  }

  /** Two artifacts of one kind share a file exactly when their phases have the same normal path and their numbers
      are equal. */
  lemma NamesCollide(directory: string, id: PhaseId, m: nat, other: PhaseId, n: nat)
    requires Relative(id) && Relative(other)
    ensures InDirectory(directory, FileName(id, m)) == InDirectory(directory, FileName(other, n)) <==>
            Normal(id) == Normal(other) && m == n
  {
    NameOf(directory, id, m);
    NameOf(directory, other, n);
    var p, q := Normal(id), Normal(other);
    var a, b := p.directories + [FileName(p.last, m)], q.directories + [FileName(q.last, n)];
    if directory + Join(a) == directory + Join(b) {
      assert Join(a) == (directory + Join(a))[|directory|..] && Join(b) == (directory + Join(b))[|directory|..];
      JoinInjective(a, b);
      assert a[|a| - 1] == b[|b| - 1];
      assert p.directories == a[..|a| - 1] && q.directories == b[..|b| - 1];
      FileNameInjective(p.last, m, q.last, n);
    }
  }

  /** An id that is an absolute path leaves the run directory: its handoffs and its decisions share their files. */
  lemma AbsoluteIdsCollide(id: PhaseId, n: nat)
    requires !Relative(id)
    ensures HandoffName(id, n) == DecisionName(id, n)
  {
    assert FileName(id, n)[0] == id[0];
  }

  /** Phases with different normal paths never share a file, in either directory. */
  lemma ArtifactNamesInjective(id: PhaseId, m: nat, other: PhaseId, n: nat)
    requires Relative(id) && Relative(other) && (Normal(id) == Normal(other) ==> id == other)
    ensures HandoffName(id, m) == HandoffName(other, n) ==> id == other && m == n
    ensures DecisionName(id, m) == DecisionName(other, n) ==> id == other && m == n
    ensures HandoffName(id, m) != DecisionName(other, n)
    ensures HandoffName(id, m) != "" && DecisionName(id, m) != ""
  {
    NamesCollide("handoffs", id, m, other, n);
    NamesCollide("decisions", id, m, other, n);
    assert HandoffName(id, m)[0] == 'h' && DecisionName(other, n)[0] == 'd';
  }

  /** So the scheme is not injective on all ids a graph accepts: "./a" and "a" share their files. */
  lemma SlashedIdsCollide(n: nat)
    ensures "./a" != "a" && HandoffName("./a", n) == HandoffName("a", n) && DecisionName("./a", n) == DecisionName("a", n)
  {
    assert "./a"[1..] == "/a" && "/a"[1..] == "a" && "a"[1..] == "";
    assert [] + ['.'] == "." && [] + ['a'] == "a";
    assert NormalFrom("", "a") == Path([], "a");
    assert NormalFrom("a", []) == Path([], "a");
    assert NormalFrom("/a", ".") == Path(Kept(".") + [], "a");
    assert Normal("./a") == NormalFrom("/a", ".");
    NamesCollide("handoffs", "./a", n, "a", n);
    NamesCollide("decisions", "./a", n, "a", n);
  }
}
