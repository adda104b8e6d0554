/** runstat (runstat.c): runs a command through run_subprocess, then records
    its exit status, timestamps, elapsed time and resource usage as a list of
    variables, writes them as CSV lines to a statistics file (through a
    temporary file renamed into place) and optionally sends them to collectd
    as PUTVAL lines. File and socket I/O are left out: the model keeps the
    paths and the lines each write would carry. */
module RunStat {
  import opened Posix
  import opened CLib
  import opened Subprocess
  import opened Tempdir

  const PATH_MAX: nat := 4096
  /** Appended to the statistics path to form the mkstemp template. */
  const TEMPLATE: string := ".XXXXXX"
  /** The formatting buffer of add_variable and of the CSV loop holds 1024
      bytes, so a formatted text keeps at most 1023 characters. */
  const TEXT_MAX: nat := 1023

  function Min(a: nat, b: nat): nat
  {
    if a <= b then a else b
  }

  /** The first n characters of s, or s when it is shorter: what survives a
      copy bounded to n characters. */
  function Clip(s: string, n: nat): (r: string)
    ensures |r| == Min(|s|, n) && r == s[..|r|]
    ensures '\0' !in s ==> '\0' !in r
  {
    if |s| <= n then s else s[..n]
  }

  /** Appending at most n - |a| characters of b to a prefix that fits in n
      keeps exactly what fits of a + b. */
  lemma ClipAppend(a: string, b: string, n: nat)
    requires |a| <= n
    ensures a + b[..Min(|b|, n - |a|)] == Clip(a + b, n)
  {
    if |a + b| > n {
      assert (a + b)[..n] == a + b[..n - |a|];
    }
  }

  /** Clipping before an append and again after it is the same as clipping once. */
  lemma ClipClip(x: string, y: string, n: nat)
    ensures Clip(Clip(x, n) + y, n) == Clip(x + y, n)
  {
    if |x| > n {
      assert (x[..n] + y)[..n] == (x + y)[..n];
    }
  }

  // ---------------------------------------------------------------------
  // Fixed-size path buffers filled with strncat
  // ---------------------------------------------------------------------

  /** A char[PATH_MAX] buffer holding a NUL-terminated string. */
  class PathBuffer {
    const buf: array<char>
    var len: nat

    ghost predicate Valid()
      reads this, buf
    {
      buf.Length == PATH_MAX && len < PATH_MAX && buf[len] == '\0' && '\0' !in buf[..len]
    }

    /** The string the buffer holds: the characters before the first NUL. */
    function Contents(): (s: CString)
      requires Valid()
      reads this, buf
      ensures |s| < PATH_MAX
    {
      buf[..len]
    }

    /** `char b[PATH_MAX] = {'\0'}` */
    constructor ()
      ensures Valid() && Contents() == [] && fresh(buf)
    {
      buf := new char[PATH_MAX](_ => '\0');
      len := 0;
    }

    /** strncat(buf, src, n): appends at most n characters of src, then a
        NUL. C requires the result to fit in the buffer. */
    method StrnCat(src: CString, n: nat)
      requires Valid() && len + Min(|src|, n) < PATH_MAX
      modifies this, buf
      ensures Valid() && Contents() == old(Contents()) + src[..Min(|src|, n)]
    {
      var m := Min(|src|, n);
      var k := 0;
      while k < m
        invariant 0 <= k <= m && len == old(len) + k && len < PATH_MAX
        invariant buf[..len] == old(buf[..len]) + src[..k]
        invariant '\0' !in buf[..len]
      {
        buf[len] := src[k];
        assert buf[..len + 1] == buf[..len] + [src[k]];
        len := len + 1;
        k := k + 1;
        assert src[..k] == src[..k - 1] + [src[k - 1]];
      }
      buf[len] := '\0';
      assert buf[..len] == old(buf[..len]) + src[..m];
    }

    /** strncat(buf, src, PATH_MAX - strlen(buf) - 1): the idiom runstat uses
        for every append, which keeps what fits of the concatenation. */
    method Append(src: CString)
      requires Valid()
      modifies this, buf
      ensures Valid() && Contents() == Clip(old(Contents()) + src, PATH_MAX - 1)
    {
      ClipAppend(Contents(), src, PATH_MAX - 1);
      StrnCat(src, PATH_MAX - len - 1);
    }
  }

  /** The default statistics path, <tempdir>/<command>.stat, cut to PATH_MAX - 1. */
  function StatsPath(dir: CString, command: CString): (path: CString)
    ensures |path| <= PATH_MAX - 1
  {
    Clip(dir + "/" + command + ".stat", PATH_MAX - 1)
  }

  /** When the default path fits it is complete; it names the full command,
      not its basename. */
  lemma StatsPathFits(dir: CString, command: CString)
    requires |dir| + |command| + 6 <= PATH_MAX - 1
    ensures StatsPath(dir, command) == dir + "/" + command + ".stat"
    ensures StatsPath(dir, command)[..|dir| + 1] == dir + "/"
    ensures StatsPath(dir, command)[|dir| + 1..|dir| + 1 + |command|] == command
  {
    var p := dir + "/" + command + ".stat";
    assert p[..|dir| + 1] == dir + "/";
    assert p[|dir| + 1..|dir| + 1 + |command|] == command;
  }

  /** The mkstemp template: the statistics path followed by ".XXXXXX", cut
      to PATH_MAX - 1. */
  function TempPath(stats: CString): (temp: CString)
    ensures |temp| <= PATH_MAX - 1
  {
    Clip(stats + TEMPLATE, PATH_MAX - 1)
  }

  /** mkstemp demands that the template end in six 'X'. */
  predicate HasTemplate(temp: string)
  {
    |temp| >= 6 && temp[|temp| - 6..] == "XXXXXX"
  }

  /** A statistics path with room for the suffix yields a usable template
      that starts with the statistics path. */
  lemma TempPathKeepsTemplate(stats: CString)
    requires |stats| + |TEMPLATE| <= PATH_MAX - 1
    ensures TempPath(stats) == stats + TEMPLATE
    ensures TempPath(stats)[..|stats|] == stats && HasTemplate(TempPath(stats))
  {
    var t := stats + TEMPLATE;
    assert t[|t| - 6..] == "XXXXXX";
    assert t[..|stats|] == stats;
  }

  /** A statistics path that fills the buffer leaves no room for the suffix:
      the template is the path itself. */
  lemma TempPathLosesTemplate(stats: CString)
    requires |stats| == PATH_MAX - 1
    ensures TempPath(stats) == stats
  {
    assert (stats + TEMPLATE)[..PATH_MAX - 1] == stats;
  }

  // ---------------------------------------------------------------------
  // The variable list
  // ---------------------------------------------------------------------

  /** GAUGE or ABSOLUTE */
  datatype Kind = Gauge | Absolute

  /** struct variable without its link: name, formatted value, optional units. */
  datatype Variable = Variable(name: string, value: string, units: Option<string>, kind: Kind)

  /** The variable add_variable builds: the value keeps what fits in the
      formatting buffer, a NULL units stays NULL. */
  function MakeVariable(name: string, kind: Kind, units: Option<string>, text: string): (v: Variable)
    ensures |v.value| == Min(|text|, TEXT_MAX) && v.value == text[..|v.value|]
    ensures |text| <= TEXT_MAX ==> v.value == text
    ensures v.name == name && v.units == units && v.kind == kind
  {
    Variable(name, Clip(text, TEXT_MAX), units, kind)
  }

  /** The list after add_variable: the new variable in front of the old list. */
  function Push(list: seq<Variable>, name: string, kind: Kind, units: Option<string>, text: string): (r: seq<Variable>)
    ensures |r| == |list| + 1 && r[0] == MakeVariable(name, kind, units, text) && r[1..] == list
  {
    [MakeVariable(name, kind, units, text)] + list
  }

  /** A list node; the source never changes a node once it is linked in.
      `items` is the list that starts at this node. */
  class Node {
    const variable: Variable
    const next: Node?
    ghost const items: seq<Variable>

    ghost predicate Valid()
      decreases |items|
    {
      items == [variable] + (if next == null then [] else next.items) &&
      (next != null ==> next.Valid())
    }

    constructor (v: Variable, rest: Node?)
      requires rest != null ==> rest.Valid()
      ensures Valid() && variable == v && next == rest
      ensures items == [v] + (if rest == null then [] else rest.items)
    {
      variable := v;
      next := rest;
      items := [v] + (if rest == null then [] else rest.items);
    }
  }

  /** var_list: the list head that add_variable rewrites. */
  class VarList {
    var head: Node?
    ghost var contents: seq<Variable>

    ghost predicate Valid()
      reads this
    {
      if head == null then contents == [] else head.Valid() && head.items == contents
    }

    /** `struct variable * var_list = NULL` */
    constructor ()
      ensures Valid() && contents == []
    {
      head := null;
      contents := [];
    }

    /** add_variable: a new node becomes the head and links to the old head. */
    method Add(name: string, kind: Kind, units: Option<string>, text: string)
      requires Valid()
      modifies this
      ensures Valid() && contents == Push(old(contents), name, kind, units, text)
      ensures head != null && head.next == old(head)
    {
      var node := new Node(MakeVariable(name, kind, units, text), head);
      head := node;
      contents := Push(contents, name, kind, units, text);
    }
  }

  // ---------------------------------------------------------------------
  // CSV lines
  // ---------------------------------------------------------------------

  function UnitsField(units: Option<string>): string
  {
    if units.Some? then units.value else ""
  }

  /** "%s,%s,%s,%s\n" of command, name, value and units (empty when NULL),
      cut to what fits in the 1024-byte buffer. */
  function CsvLine(command: string, v: Variable): (line: string)
    ensures |line| <= TEXT_MAX
  {
    Clip(command + "," + v.name + "," + v.value + "," + UnitsField(v.units) + "\n", TEXT_MAX)
  }

  /** One line per variable, in list order. */
  function CsvLines(command: string, vars: seq<Variable>): (lines: seq<string>)
    ensures |lines| == |vars|
    ensures forall i :: 0 <= i < |vars| ==> lines[i] == CsvLine(command, vars[i])
  {
    seq(|vars|, i requires 0 <= i < |vars| => CsvLine(command, vars[i]))
  }

  /** The fields of a line separated by `sep`, as a reader that splits
      on that character sees them. */
  function Split(s: string, sep: char): (fields: seq<string>)
    ensures |fields| >= 1
  {
    if s == [] then [""]
    else
      var rest := Split(s[1..], sep);
      if s[0] == sep then [""] + rest else [[s[0]] + rest[0]] + rest[1..]
  }

  lemma {:induction false} SplitSingle(a: string, sep: char)
    requires sep !in a
    ensures Split(a, sep) == [a]
  {
    if a != [] {
      SplitSingle(a[1..], sep);
      assert [a[0]] + a[1..] == a;
    }
  }

  lemma {:induction false} SplitFirst(a: string, sep: char, b: string)
    requires sep !in a
    ensures Split(a + [sep] + b, sep) == [a] + Split(b, sep)
  {
    if a == [] {
      assert a + [sep] + b == [sep] + b;
      assert (a + [sep] + b)[1..] == b;
    } else {
      SplitFirst(a[1..], sep, b);
      assert (a + [sep] + b)[1..] == a[1..] + [sep] + b;
      assert [a[0]] + a[1..] == a;
    }
  }

  /** A CSV line that fits in its buffer ends in a newline and, split on
      commas, reads back as its four fields, as long as none of them holds
      a comma. */
  lemma CsvLineFields(command: string, v: Variable)
    requires ',' !in command && ',' !in v.name && ',' !in v.value && ',' !in UnitsField(v.units)
    requires |command| + |v.name| + |v.value| + |UnitsField(v.units)| + 4 <= TEXT_MAX
    ensures var line := CsvLine(command, v);
      line != [] && line[|line| - 1] == '\n' &&
      Split(line[..|line| - 1], ',') == [command, v.name, v.value, UnitsField(v.units)]
  {
    var u := UnitsField(v.units);
    var line := CsvLine(command, v);
    assert line == command + "," + v.name + "," + v.value + "," + u + "\n";
    assert line[..|line| - 1] == command + [','] + (v.name + [','] + (v.value + [','] + u));
    SplitFirst(command, ',', v.name + [','] + (v.value + [','] + u));
    SplitFirst(v.name, ',', v.value + [','] + u);
    SplitFirst(v.value, ',', u);
    SplitSingle(u, ',');
  }

  /** Following a node's link moves one place along the list it starts. */
  lemma NodeStep(node: Node, vars: seq<Variable>, k: nat)
    requires node.Valid() && k < |vars| && node.items == vars[k..]
    ensures node.variable == vars[k]
    ensures node.next == null <==> k + 1 == |vars|
    ensures node.next != null ==> node.next.Valid() && node.next.items == vars[k + 1..]
  {
    assert vars[k..][1..] == vars[k + 1..];
  }

  lemma CsvLinesSnoc(command: string, vars: seq<Variable>, k: nat)
    requires k < |vars|
    ensures CsvLines(command, vars[..k + 1]) == CsvLines(command, vars[..k]) + [CsvLine(command, vars[k])]
  {
  }

  /** The CSV loop: walks the list from its head. */
  method WriteCsv(command: string, list: VarList) returns (lines: seq<string>)
    requires list.Valid()
    ensures lines == CsvLines(command, list.contents)
  {
    lines := [];
    var node := list.head;
    ghost var k := 0;
    while node != null
      invariant 0 <= k <= |list.contents| && |lines| == k
      invariant node == null ==> k == |list.contents|
      invariant node != null ==> node.Valid() && node.items == list.contents[k..]
      invariant lines == CsvLines(command, list.contents[..k])
      decreases |list.contents| - k
    {
      NodeStep(node, list.contents, k);
      CsvLinesSnoc(command, list.contents, k);
      lines := lines + [CsvLine(command, node.variable)];
      node := node.next;
      k := k + 1;
    }
    assert list.contents[..k] == list.contents;
  }

  // ---------------------------------------------------------------------
  // collectd PUTVAL lines
  // ---------------------------------------------------------------------

  /** The collectd type of a kind. */
  function CollectdType(kind: Kind): (t: string)
    ensures t == "gauge" <==> kind == Gauge
    ensures t == "counter" <==> kind == Absolute
    ensures |t| <= 9
  {
    match kind
    case Gauge => "gauge"
    case Absolute => "counter"
  }

  /** host/runstat-<basename of command>/<type>-<name> */
  function Identifier(host: string, command: string, v: Variable): string
  {
    host + "/runstat-" + Basename(command) + "/" + CollectdType(v.kind) + "-" + v.name
  }

  /** PUTVAL "<identifier>" <end time>:<value> */
  function PutvalLine(host: string, command: string, endSec: int, v: Variable): (line: string)
    ensures |line| > 8 && line[..8] == "PUTVAL \"" && line[|line| - 1] == '\n'
  {
    "PUTVAL \"" + Identifier(host, command, v) + "\" " + FormatInt(endSec) + ":" + v.value + "\n"
  }

  /** Where the type and the name sit in "<prefix><type>-<name>". */
  lemma TypedNameParts(p: string, t: string, n: string)
    requires t != []
    ensures (p + t + "-" + n)[|p|] == t[0]
    ensures (p + t + "-" + n)[|p| + |t| + 1..] == n
  {
  }

  /** Within one run, each variable's identifier tells its kind and name. */
  lemma IdentifierInjective(host: string, command: string, v: Variable, w: Variable)
    requires Identifier(host, command, v) == Identifier(host, command, w)
    ensures v.kind == w.kind && v.name == w.name
  {
    var p := host + "/runstat-" + Basename(command) + "/";
    TypedNameParts(p, CollectdType(v.kind), v.name);
    TypedNameParts(p, CollectdType(w.kind), w.name);
    assert CollectdType(v.kind)[0] == CollectdType(w.kind)[0];
  }

  /** Three fields joined by a separator none of them holds split back apart. */
  lemma SplitThree(a: string, sep: char, b: string, c: string)
    requires sep !in a && sep !in b && sep !in c
    ensures Split(a + [sep] + b + [sep] + c, sep) == [a, b, c]
  {
    assert a + [sep] + b + [sep] + c == a + [sep] + (b + [sep] + c);
    SplitFirst(a, sep, b + [sep] + c);
    SplitFirst(b, sep, c);
    SplitSingle(c, sep);
  }

  /** The identifier splits on '/' into the host, the plugin
      "runstat-<basename>" and "<type>-<name>", unless the basename is "/". */
  lemma IdentifierFields(host: string, command: string, v: Variable)
    requires '/' !in host && '/' !in v.name && Basename(command) != "/"
    ensures Split(Identifier(host, command, v), '/') ==
      [host, "runstat-" + Basename(command), CollectdType(v.kind) + "-" + v.name]
  {
    var b := Basename(command);
    var t := CollectdType(v.kind);
    assert '/' !in b;
    assert '/' !in "runstat-" && '/' !in t + "-";
    var p := "runstat-" + b;
    var n := t + "-" + v.name;
    assert Identifier(host, command, v) == host + ['/'] + p + ['/'] + n;
    SplitThree(host, '/', p, n);
  }

  /** A PUTVAL line ends in a newline and, without it, splits on '"' into
      the command word, the identifier and the time and value, which split
      on ':' into the end time and the value. That holds as long as no part
      holds the separator it is split on. */
  lemma PutvalLineFields(host: string, command: string, endSec: int, v: Variable)
    requires '"' !in Identifier(host, command, v) && '"' !in v.value && ':' !in v.value
    ensures var line := PutvalLine(host, command, endSec, v);
      var fields := Split(line[..|line| - 1], '"');
      fields == ["PUTVAL ", Identifier(host, command, v), " " + FormatInt(endSec) + ":" + v.value] &&
      Split(fields[2], ':') == [" " + FormatInt(endSec), v.value]
  {
    var f := FormatInt(endSec);
    var id := Identifier(host, command, v);
    var rest := " " + f + ":" + v.value;
    var line := PutvalLine(host, command, endSec, v);
    assert line[..|line| - 1] == "PUTVAL " + ['"'] + id + ['"'] + rest;
    FormatIntChars(endSec);
    SplitThree("PUTVAL ", '"', id, rest);
    assert rest == " " + f + [':'] + v.value;
    SplitFirst(" " + f, ':', v.value);
    SplitSingle(v.value, ':');
  }

  function PutvalLines(host: string, command: string, endSec: int, vars: seq<Variable>): (lines: seq<string>)
    ensures |lines| == |vars|
    ensures forall i :: 0 <= i < |vars| ==> lines[i] == PutvalLine(host, command, endSec, vars[i])
  {
    seq(|vars|, i requires 0 <= i < |vars| => PutvalLine(host, command, endSec, vars[i]))
  }

  lemma PutvalLinesSnoc(host: string, command: string, endSec: int, vars: seq<Variable>, k: nat)
    requires k < |vars|
    ensures PutvalLines(host, command, endSec, vars[..k + 1]) ==
      PutvalLines(host, command, endSec, vars[..k]) + [PutvalLine(host, command, endSec, vars[k])]
  {
  }

  /** The collectd loop: walks the list from its head. */
  method SendPutval(host: string, command: string, endSec: int, list: VarList) returns (lines: seq<string>)
    requires list.Valid()
    ensures lines == PutvalLines(host, command, endSec, list.contents)
  {
    lines := [];
    var node := list.head;
    ghost var k := 0;
    while node != null
      invariant 0 <= k <= |list.contents| && |lines| == k
      invariant node == null ==> k == |list.contents|
      invariant node != null ==> node.Valid() && node.items == list.contents[k..]
      invariant lines == PutvalLines(host, command, endSec, list.contents[..k])
      decreases |list.contents| - k
    {
      NodeStep(node, list.contents, k);
      PutvalLinesSnoc(host, command, endSec, list.contents, k);
      lines := lines + [PutvalLine(host, command, endSec, node.variable)];
      node := node.next;
      k := k + 1;
    }
    assert list.contents[..k] == list.contents;
  }

  // ---------------------------------------------------------------------
  // Elapsed time
  // ---------------------------------------------------------------------

  const NSEC_PER_SEC: int := 1000000000

  /** struct timespec from CLOCK_MONOTONIC */
  datatype TimeSpec = TimeSpec(sec: int, nsec: int)

  /** The clock's own readings keep the nanoseconds within one second. */
  predicate Normalized(t: TimeSpec)
  {
    0 <= t.nsec < NSEC_PER_SEC
  }

  function Nanos(t: TimeSpec): int
  {
    t.sec * NSEC_PER_SEC + t.nsec
  }

  /** The elapsed time as runstat.c computes it: seconds and nanoseconds
      subtracted separately, with no borrow. */
  function ElapsedAsWritten(start: TimeSpec, end: TimeSpec): (e: TimeSpec)
    ensures Nanos(e) == Nanos(end) - Nanos(start)
  {
    TimeSpec(end.sec - start.sec, end.nsec - start.nsec)
  }

  /** Two readings 0.2 s apart across a second boundary give 1 s and
      -800000000 ns, which "%ld.%.9ld" prints as "1.-800000000". */
  lemma ElapsedBorrowMissing()
    ensures var start := TimeSpec(0, 900000000);
      var end := TimeSpec(1, 100000000);
      Normalized(start) && Normalized(end) &&
      ElapsedAsWritten(start, end) == TimeSpec(1, -800000000) &&
      !Normalized(ElapsedAsWritten(start, end)) &&
      Nanos(end) - Nanos(start) == 200000000
  {
  }

  /** The elapsed time with the borrow: the same duration, with nanoseconds
      within one second. This is the corrected form; the variables runstat
      collects keep ElapsedAsWritten, as runstat.c does. */
  function Elapsed(start: TimeSpec, end: TimeSpec): (e: TimeSpec)
    ensures Nanos(e) == Nanos(end) - Nanos(start)
    ensures Normalized(start) && Normalized(end) ==> Normalized(e)
    ensures start.nsec <= end.nsec ==> e == ElapsedAsWritten(start, end)
  {
    if start.nsec <= end.nsec then TimeSpec(end.sec - start.sec, end.nsec - start.nsec)
    else TimeSpec(end.sec - start.sec - 1, end.nsec - start.nsec + NSEC_PER_SEC)
  }

  /** A duration has one normalised form, so Elapsed is the only correct
      answer for normalised readings. */
  lemma NormalizedUnique(a: TimeSpec, b: TimeSpec)
    requires Normalized(a) && Normalized(b) && Nanos(a) == Nanos(b)
    ensures a == b
  {
  }

  // ---------------------------------------------------------------------
  // The variables runstat records
  // ---------------------------------------------------------------------

  /** The sixteen getrusage(RUSAGE_CHILDREN) values, already formatted. */
  type RusageTexts = t: seq<string> | |t| == 16
    witness ["", "", "", "", "", "", "", "", "", "", "", "", "", "", "", ""]

  /** Clock readings and measurements, as inputs: wall-clock timestamps
      already formatted, monotonic readings as numbers, the renderer of the
      elapsed time, and the resource usage when getrusage succeeds. */
  datatype Readings = Readings(startWall: string, endWall: string, endSec: int,
                               startRun: TimeSpec, endRun: TimeSpec,
                               elapsedText: (int, int) -> string,
                               rusage: Option<RusageTexts>)

  /** The first four variables, in the order they are added. */
  function BaseVariables(statusText: string, r: Readings): (vars: seq<Variable>)
  {
    var e := ElapsedAsWritten(r.startRun, r.endRun);
    var l1 := Push([], "exit_status", Gauge, None, statusText);
    var l2 := Push(l1, "start_timestamp", Absolute, Some("time_t"), r.startWall);
    var l3 := Push(l2, "end_timestamp", Absolute, Some("time_t"), r.endWall);
    Push(l3, "elapsed_time", Gauge, Some("s"), r.elapsedText(e.sec, e.nsec))
  }

  /** The sixteen resource-usage variables added in front of `list`. */
  function RusageVariables(list: seq<Variable>, t: RusageTexts): (vars: seq<Variable>)
  {
    var l1 := Push(list, "user_time", Gauge, Some("s"), t[0]);
    var l2 := Push(l1, "system_time", Gauge, Some("s"), t[1]);
    var l3 := Push(l2, "rss-max", Gauge, Some("B"), t[2]);
    var l4 := Push(l3, "rss-shared", Gauge, Some("B"), t[3]);
    var l5 := Push(l4, "rss-data_unshared", Gauge, Some("B"), t[4]);
    var l6 := Push(l5, "rss-stack_unshared", Gauge, Some("B"), t[5]);
    var l7 := Push(l6, "page-reclaims", Gauge, Some("pages"), t[6]);
    var l8 := Push(l7, "page-faults", Gauge, Some("pages"), t[7]);
    var l9 := Push(l8, "swaps", Gauge, Some("swaps"), t[8]);
    var l10 := Push(l9, "block_ios-in", Gauge, Some("block_ios"), t[9]);
    var l11 := Push(l10, "block_ios-out", Gauge, Some("block_ios"), t[10]);
    var l12 := Push(l11, "messages-sent", Gauge, Some("messages"), t[11]);
    var l13 := Push(l12, "messages-received", Gauge, Some("messages"), t[12]);
    var l14 := Push(l13, "signals-received", Gauge, Some("signals"), t[13]);
    var l15 := Push(l14, "ctx_switch-voluntary", Gauge, Some("context switches"), t[14]);
    Push(l15, "ctx_switch-involuntary", Gauge, Some("context switches"), t[15])
  }

  /** The whole list, head first. */
  function Collected(statusText: string, r: Readings): seq<Variable>
  {
    var base := BaseVariables(statusText, r);
    if r.rusage.Some? then RusageVariables(base, r.rusage.value) else base
  }

  /** The four fixed variables, then the sixteen resource-usage ones when
      getrusage succeeds. */
  method CollectVariables(statusText: string, r: Readings) returns (list: VarList)
    ensures fresh(list) && list.Valid() && list.contents == Collected(statusText, r)
  {
    list := new VarList();
    list.Add("exit_status", Gauge, None, statusText);
    list.Add("start_timestamp", Absolute, Some("time_t"), r.startWall);
    list.Add("end_timestamp", Absolute, Some("time_t"), r.endWall);
    var e := ElapsedAsWritten(r.startRun, r.endRun);
    list.Add("elapsed_time", Gauge, Some("s"), r.elapsedText(e.sec, e.nsec));
    if r.rusage.Some? {
      var t := r.rusage.value;
      list.Add("user_time", Gauge, Some("s"), t[0]);
      list.Add("system_time", Gauge, Some("s"), t[1]);
      list.Add("rss-max", Gauge, Some("B"), t[2]);
      list.Add("rss-shared", Gauge, Some("B"), t[3]);
      list.Add("rss-data_unshared", Gauge, Some("B"), t[4]);
      list.Add("rss-stack_unshared", Gauge, Some("B"), t[5]);
      list.Add("page-reclaims", Gauge, Some("pages"), t[6]);
      list.Add("page-faults", Gauge, Some("pages"), t[7]);
      list.Add("swaps", Gauge, Some("swaps"), t[8]);
      list.Add("block_ios-in", Gauge, Some("block_ios"), t[9]);
      list.Add("block_ios-out", Gauge, Some("block_ios"), t[10]);
      list.Add("messages-sent", Gauge, Some("messages"), t[11]);
      list.Add("messages-received", Gauge, Some("messages"), t[12]);
      list.Add("signals-received", Gauge, Some("signals"), t[13]);
      list.Add("ctx_switch-voluntary", Gauge, Some("context switches"), t[14]);
      list.Add("ctx_switch-involuntary", Gauge, Some("context switches"), t[15]);
    }
  }

  /** The resource-usage block adds sixteen variables in front and leaves
      the older ones, and so the oldest, in place. */
  lemma RusageVariablesShape(list: seq<Variable>, t: RusageTexts)
    requires list != []
    ensures var vars := RusageVariables(list, t);
      |vars| == |list| + 16 && vars[|vars| - 1] == list[|list| - 1] &&
      vars[0].name == "ctx_switch-involuntary"
  {
  }

  /** The fixed block: four variables, exit_status the oldest. */
  lemma BaseVariablesShape(statusText: string, r: Readings)
    ensures var vars := BaseVariables(statusText, r);
      var e := ElapsedAsWritten(r.startRun, r.endRun);
      |vars| == 4 && vars[3] == MakeVariable("exit_status", Gauge, None, statusText) &&
      vars[0] == MakeVariable("elapsed_time", Gauge, Some("s"), r.elapsedText(e.sec, e.nsec))
  {
  }

  /** add_variable prepends, so the CSV and PUTVAL loops meet the variables
      in reverse order of addition: exit_status, added first, comes last. */
  lemma StatusListedLast(command: string, statusText: string, r: Readings)
    ensures var vars := Collected(statusText, r);
      |vars| == (if r.rusage.Some? then 20 else 4) &&
      vars[|vars| - 1] == MakeVariable("exit_status", Gauge, None, statusText) &&
      CsvLines(command, vars)[|vars| - 1] == CsvLine(command, MakeVariable("exit_status", Gauge, None, statusText))
    ensures var vars := Collected(statusText, r);
      vars[0].name == (if r.rusage.Some? then "ctx_switch-involuntary" else "elapsed_time")
  {
    BaseVariablesShape(statusText, r);
    if r.rusage.Some? {
      RusageVariablesShape(BaseVariables(statusText, r), r.rusage.value);
    }
  }

  // ---------------------------------------------------------------------
  // main
  // ---------------------------------------------------------------------

  /** The command line after option parsing: -C, -f and the command with
      its arguments. */
  datatype StatArgs = StatArgs(sockname: Option<CString>, statsFile: Option<CString>, argv: seq<CString>)

  /** What the system answers: the run's fork, child and wait results, the
      readings, the value an unassigned status would print as, make_tempdir's
      results, whether mkstemp, rename and the collectd connection succeed,
      and the host name. */
  datatype StatEnv = StatEnv(fork: int, child: ChildRun, attempts: seq<WaitAttempt>, kill: KillResult,
                             readings: Readings, unassignedStatus: int, tempdir: TempdirEnv,
                             mkstempOk: bool, renameOk: bool, connectOk: bool, hostname: string)

  /** The files and messages a run produces: the statistics path, the mkstemp
      template, the CSV lines written to the temporary file and the PUTVAL
      lines sent to collectd. */
  datatype Report = Report(statsPath: string, tempPath: string, csv: seq<string>, putval: seq<string>)

  const NoReport: Report := Report([], [], [], [])

  datatype Ending = Ending(outcome: Outcome, report: Report)

  predicate Returned(o: Outcome)
  {
    o.Return? || o.ReturnUnspecified?
  }

  /** An option's value after strncat into an empty PATH_MAX buffer. */
  function OptionText(o: Option<CString>): (s: CString)
    ensures |s| <= PATH_MAX - 1
    ensures o.Some? && |o.value| <= PATH_MAX - 1 ==> s == o.value
    ensures o.None? ==> s == []
  {
    if o.None? then [] else Clip(o.value, PATH_MAX - 1)
  }

  /** The statistics path: the -f value when it is not empty, otherwise the
      default path in the per-user directory (or make_tempdir's exit code). */
  function StatsFileFor(args: StatArgs, env: StatEnv): (r: Checked<CString>)
    requires |args.argv| > 0
    ensures OptionText(args.statsFile) != [] ==> r == Ok(OptionText(args.statsFile))
    ensures OptionText(args.statsFile) == [] ==>
      r == (match TempdirOutcome(env.tempdir)
            case Ok(dir) => Ok(StatsPath(dir, args.argv[0]))
            case Abort(code) => Abort(code))
  {
    var f := OptionText(args.statsFile);
    if f != [] then Ok(f)
    else match TempdirOutcome(env.tempdir)
      case Ok(dir) => Ok(StatsPath(dir, args.argv[0]))
      case Abort(code) => Abort(code)
  }

  /** The value "%d" prints for the status main holds after the run. */
  function StatusText(run: Outcome, env: StatEnv): string
  {
    FormatInt(if run.Return? then run.status else env.unassignedStatus)
  }

  /** How runstat ends and what it produces. */
  function StatEnding(args: StatArgs, env: StatEnv, killed: bool): (e: Ending)
    ensures |args.argv| == 0 ==> e == Ending(Terminate(EXIT_FAILURE), NoReport)
    ensures |args.argv| > 0 && !Returned(RunOutcome(env.fork, env.child, env.attempts, killed)) ==>
      e == Ending(RunOutcome(env.fork, env.child, env.attempts, killed), NoReport)
    ensures Returned(e.outcome) ==> |args.argv| > 0 && e.outcome == RunOutcome(env.fork, env.child, env.attempts, killed)
    ensures e.report.csv != [] ==> env.mkstempOk && HasTemplate(e.report.tempPath)
    ensures e.report.putval != [] ==>
      env.renameOk && env.connectOk && OptionText(args.sockname) != [] && |e.report.putval| == |e.report.csv|
  {
    if |args.argv| == 0 then Ending(Terminate(EXIT_FAILURE), NoReport)
    else
      var run := RunOutcome(env.fork, env.child, env.attempts, killed);
      if !Returned(run) then Ending(run, NoReport)
      else Recorded(args, env, run)
  }

  /** What runstat does once the command's run has returned `run`. */
  function Recorded(args: StatArgs, env: StatEnv, run: Outcome): (e: Ending)
    requires |args.argv| > 0
    ensures e.outcome == run || e.outcome.Terminate?
    ensures e.report.csv != [] ==> env.mkstempOk && HasTemplate(e.report.tempPath)
    ensures e.report.putval != [] ==>
      env.renameOk && env.connectOk && OptionText(args.sockname) != [] && |e.report.putval| == |e.report.csv|
  {
    var command := args.argv[0];
    match StatsFileFor(args, env)
    case Abort(code) => Ending(Terminate(code), NoReport)
    case Ok(stats) =>
      var temp := TempPath(stats);
      if !(env.mkstempOk && HasTemplate(temp)) then Ending(Terminate(EX_OSERR), Report(stats, temp, [], []))
      else
        var vars := Collected(StatusText(run, env), env.readings);
        var csv := CsvLines(command, vars);
        if !env.renameOk then Ending(Terminate(EX_OSERR), Report(stats, temp, csv, []))
        else
          var putval :=
            if OptionText(args.sockname) != [] && env.connectOk
            then PutvalLines(env.hostname, command, env.readings.endSec, vars) else [];
          Ending(run, Report(stats, temp, csv, putval))
  }

  /** When every step after the run succeeds, runstat exits with the
      command's status and reports it on the last CSV line. */
  lemma StatusPassesThrough(args: StatArgs, env: StatEnv, killed: bool)
    requires |args.argv| > 0 && Returned(RunOutcome(env.fork, env.child, env.attempts, killed))
    requires StatsFileFor(args, env).Ok? && env.mkstempOk && env.renameOk
    requires HasTemplate(TempPath(StatsFileFor(args, env).value))
    ensures var e := StatEnding(args, env, killed);
      var run := RunOutcome(env.fork, env.child, env.attempts, killed);
      e.outcome == run && e.report.statsPath == StatsFileFor(args, env).value &&
      e.report.csv != [] &&
      e.report.csv[|e.report.csv| - 1] ==
        CsvLine(args.argv[0], MakeVariable("exit_status", Gauge, None, StatusText(run, env)))
  {
    var run := RunOutcome(env.fork, env.child, env.attempts, killed);
    StatusListedLast(args.argv[0], StatusText(run, env), env.readings);
  }

  /** A statistics path too long for the suffix leaves mkstemp no template,
      and runstat exits EX_OSERR once the command has run. */
  lemma LongStatsPathFails(args: StatArgs, env: StatEnv, killed: bool)
    requires |args.argv| > 0 && Returned(RunOutcome(env.fork, env.child, env.attempts, killed))
    requires StatsFileFor(args, env).Ok? && |StatsFileFor(args, env).value| == PATH_MAX - 1
    requires !HasTemplate(StatsFileFor(args, env).value)
    ensures StatEnding(args, env, killed).outcome == Terminate(EX_OSERR)
  {
    TempPathLosesTemplate(StatsFileFor(args, env).value);
  }

  /** Four bounded appends keep what fits of the whole concatenation. */
  lemma {:induction false} AppendsClip(dir: string, command: string, n: nat)
    ensures Clip(Clip(Clip(Clip([] + dir, n) + "/", n) + command, n) + ".stat", n) ==
      Clip(dir + "/" + command + ".stat", n)
  {
    assert [] + dir == dir;
    ClipClip(dir, "/", n);
    ClipClip(dir + "/", command, n);
    ClipClip(dir + "/" + command, ".stat", n);
  }

  /** The default statistics path, built by four bounded appends. */
  method DefaultStatsPath(stats: PathBuffer, dir: CString, command: CString)
    requires stats.Valid() && stats.Contents() == []
    modifies stats, stats.buf
    ensures stats.Valid() && stats.Contents() == StatsPath(dir, command)
  {
    ghost var s0 := stats.Contents();
    stats.Append(dir);
    ghost var s1 := stats.Contents();
    stats.Append("/");
    ghost var s2 := stats.Contents();
    stats.Append(command);
    ghost var s3 := stats.Contents();
    stats.Append(".stat");
    assert s1 == Clip(s0 + dir, PATH_MAX - 1);
    assert s2 == Clip(s1 + "/", PATH_MAX - 1);
    assert s3 == Clip(s2 + command, PATH_MAX - 1);
    AppendsClip(dir, command, PATH_MAX - 1);
  }

  /** An option copied into its buffer. */
  method CopyOption(o: Option<CString>) returns (b: PathBuffer)
    ensures fresh(b) && fresh(b.buf) && b.Valid() && b.Contents() == OptionText(o)
  {
    b := new PathBuffer();
    if o.Some? {
      b.StrnCat(o.value, PATH_MAX - 1);
    }
  }

  /** The mkstemp template, copied from the statistics path and extended. */
  method TempTemplate(stats: CString) returns (temp: CString)
    ensures temp == TempPath(stats)
  {
    var t := new PathBuffer();
    t.StrnCat(stats, PATH_MAX - 1);
    ghost var t1 := t.Contents();
    t.Append(TEMPLATE);
    assert t1 == Clip(stats, PATH_MAX - 1);
    ClipClip(stats, TEMPLATE, PATH_MAX - 1);
    temp := t.Contents();
  }

  /** The statistics path, from -f or else the default one. */
  method StatsFile(args: StatArgs, env: StatEnv) returns (r: Checked<CString>)
    requires |args.argv| > 0
    ensures r == StatsFileFor(args, env)
  {
    var stats := CopyOption(args.statsFile);
    if stats.Contents() == [] {
      var dir := MakeTempdir(env.tempdir);
      if dir.Abort? {
        return Abort(dir.code);
      }
      DefaultStatsPath(stats, dir.value, args.argv[0]);
    }
    r := Ok(stats.Contents());
  }

  /** runstat's main, from option values to the final return. */
  method Execute(proc: Process, args: StatArgs, env: StatEnv) returns (r: Outcome, report: Report)
    requires AllCaught(env.attempts, InstallTermination(proc.actions))
    modifies proc
    ensures Ending(r, report) == StatEnding(args, env, old(proc.killedByUs))
    ensures proc.steps == old(proc.steps) +
      (if |args.argv| == 0 then []
       else RunSteps(args.argv[0], NoPreWait, old(proc.actions), env.fork, env.child, env.attempts,
                     old(proc.killedByUs), old(proc.fatalErrorInProgress), env.kill))
    ensures proc.fatalErrorInProgress ==
      (old(proc.fatalErrorInProgress) || (|args.argv| > 0 && env.fork > 0 && WaitInterrupted(env.attempts, old(proc.killedByUs))))
  {
    var sock := CopyOption(args.sockname);
    if |args.argv| == 0 {
      return Terminate(EXIT_FAILURE), NoReport;
    }
    var status := proc.RunSubprocess(args.argv[0], NoPreWait, env.fork, env.child, env.attempts, env.kill);
    if !Returned(status) {
      return status, NoReport;
    }
    r, report := Record(args, env, status, sock);
  }

  /** After the run: the statistics file, the temporary file, the variables,
      the CSV lines, the rename and the collectd lines. */
  method Record(args: StatArgs, env: StatEnv, status: Outcome, sock: PathBuffer) returns (r: Outcome, report: Report)
    requires |args.argv| > 0 && sock.Valid() && sock.Contents() == OptionText(args.sockname)
    ensures Ending(r, report) == Recorded(args, env, status)
  {
    var command := args.argv[0];
    var stats := StatsFile(args, env);
    if stats.Abort? {
      return Terminate(stats.code), NoReport;
    }
    var temp := TempTemplate(stats.value);
    if !(env.mkstempOk && HasTemplate(temp)) {
      return Terminate(EX_OSERR), Report(stats.value, temp, [], []);
    }
    var list := CollectVariables(StatusText(status, env), env.readings);
    var csv := WriteCsv(command, list);
    if !env.renameOk {
      return Terminate(EX_OSERR), Report(stats.value, temp, csv, []);
    }
    var putval := [];
    if sock.Contents() != [] && env.connectOk {
      putval := SendPutval(env.hostname, command, env.readings.endSec, list);
    }
    return status, Report(stats.value, temp, csv, putval);
  }
}
