/**
 * The configuration of a command and the functional options that set it
 * (option.go). Each Go option is a closure that assigns fields of the command's
 * configuration; here it is a value of `Option`, and `Apply` is what its
 * closure does.
 */
module Options {

  /** Line continuation characters (option.go:3-9). */
  const LineContinuationDefault: string := "\\"
  const LineContinuationWindows: string := "^"
  const LineContinuationPowerShell: string := "`"

  /** Body limit used when none, or a non-positive one, is given (option.go:11-12). */
  const DefaultMaxBodySize: int := 1024

  datatype OutputStyle = OutputStyle(
    useLongForm: bool,
    useMultiLine: bool,
    useDoubleQuotes: bool,
    lineContinuation: string)

  datatype CurlFlags = CurlFlags(location: bool, compressed: bool, insecure: bool, silent: bool)

  /** The range of Go's `int` on a 64-bit platform. */
  const MaxInt: int := 0x7FFF_FFFF_FFFF_FFFF
  const MinInt: int := -0x8000_0000_0000_0000

  type GoInt = x: int | MinInt <= x <= MaxInt

  datatype Config = Config(style: OutputStyle, flags: CurlFlags, requestTimeout: GoInt, maxBodySize: GoInt)

  /** The configuration NewFromRequest starts from: Go's zero values and the default body limit. */
  function Initial(): Config
  {
    Config(OutputStyle(false, false, false, ""), CurlFlags(false, false, false, false), 0, DefaultMaxBodySize)
  }

  datatype Option =
    | WithFollowRedirects
    | WithCompression
    | WithInsecure
    | WithLongForm
    | WithSilent
    | WithMultiLine
    | WithWindowsMultiLine
    | WithPowerShellMultiLine
    | WithDoubleQuotes
    | WithRequestTimeout(seconds: GoInt)
    | WithMaxBodySize(bytes: GoInt)

  /** What the closure of option `o` does to the configuration. */
  function Apply(c: Config, o: Option): Config
  {
    match o
    case WithFollowRedirects => c.(flags := c.flags.(location := true))
    case WithCompression => c.(flags := c.flags.(compressed := true))
    case WithInsecure => c.(flags := c.flags.(insecure := true))
    case WithLongForm => c.(style := c.style.(useLongForm := true))
    case WithSilent => c.(flags := c.flags.(silent := true))
    case WithMultiLine =>
      c.(style := c.style.(useMultiLine := true, lineContinuation := LineContinuationDefault))
    case WithWindowsMultiLine =>
      c.(style := c.style.(useMultiLine := true, lineContinuation := LineContinuationWindows))
    case WithPowerShellMultiLine =>
      c.(style := c.style.(useMultiLine := true, lineContinuation := LineContinuationPowerShell))
    case WithDoubleQuotes => c.(style := c.style.(useDoubleQuotes := true))
    case WithRequestTimeout(seconds) => c.(requestTimeout := if seconds < 0 then 0 else seconds)
    case WithMaxBodySize(bytes) => c.(maxBodySize := if bytes <= 0 then DefaultMaxBodySize else bytes)
  }

  /** The options applied one after another, first to last. */
  function ApplyAll(c: Config, opts: seq<Option>): Config
  {
    if opts == [] then c else Apply(ApplyAll(c, opts[..|opts| - 1]), opts[|opts| - 1])
  }

  /** What holds of every configuration the options can produce. */
  predicate Valid(c: Config)
  {
    && c.maxBodySize > 0
    && c.requestTimeout >= 0
    && (c.style.useMultiLine ==>
          c.style.lineContinuation in {LineContinuationDefault, LineContinuationWindows, LineContinuationPowerShell})
  }

  // ----- The fields of a configuration, to speak of what an option writes -----

  datatype Field =
    | Location | Compressed | Insecure | Silent
    | LongForm | MultiLine | DoubleQuotes | Continuation
    | Timeout | MaxBody

  datatype Value = Flag(b: bool) | Text(s: string) | Number(n: int)

  function Get(c: Config, f: Field): Value
  {
    match f
    case Location => Flag(c.flags.location)
    case Compressed => Flag(c.flags.compressed)
    case Insecure => Flag(c.flags.insecure)
    case Silent => Flag(c.flags.silent)
    case LongForm => Flag(c.style.useLongForm)
    case MultiLine => Flag(c.style.useMultiLine)
    case DoubleQuotes => Flag(c.style.useDoubleQuotes)
    case Continuation => Text(c.style.lineContinuation)
    case Timeout => Number(c.requestTimeout)
    case MaxBody => Number(c.maxBodySize)
  }

  /** The fields the closure of `o` assigns. */
  function Writes(o: Option): set<Field>
  {
    match o
    case WithFollowRedirects => {Location}
    case WithCompression => {Compressed}
    case WithInsecure => {Insecure}
    case WithLongForm => {LongForm}
    case WithSilent => {Silent}
    case WithMultiLine => {MultiLine, Continuation}
    case WithWindowsMultiLine => {MultiLine, Continuation}
    case WithPowerShellMultiLine => {MultiLine, Continuation}
    case WithDoubleQuotes => {DoubleQuotes}
    case WithRequestTimeout(_) => {Timeout}
    case WithMaxBodySize(_) => {MaxBody}
  }

  /** The value the closure of `o` stores in field `f`, whatever was there before. */
  function Written(o: Option, f: Field): Value
    requires f in Writes(o)
  {
    match o
    case WithMultiLine => if f == MultiLine then Flag(true) else Text(LineContinuationDefault)
    case WithWindowsMultiLine => if f == MultiLine then Flag(true) else Text(LineContinuationWindows)
    case WithPowerShellMultiLine => if f == MultiLine then Flag(true) else Text(LineContinuationPowerShell)
    case WithRequestTimeout(seconds) => Number(if seconds < 0 then 0 else seconds)
    case WithMaxBodySize(bytes) => Number(if bytes <= 0 then DefaultMaxBodySize else bytes)
    case _ => Flag(true)
  }

  /** An option stores a fixed value in the fields it writes and changes nothing else. */
  lemma ApplyFrame(c: Config, o: Option, f: Field)
    ensures f in Writes(o) ==> Get(Apply(c, o), f) == Written(o, f)
    ensures f !in Writes(o) ==> Get(Apply(c, o), f) == Get(c, f)
  {
  }

  /** A configuration is determined by its fields. */
  lemma ConfigExtensional(c: Config, d: Config)
    requires forall f :: Get(c, f) == Get(d, f)
    ensures c == d
  {
    assert Get(c, Location) == Get(d, Location) && Get(c, Compressed) == Get(d, Compressed);
    assert Get(c, Insecure) == Get(d, Insecure) && Get(c, Silent) == Get(d, Silent);
    assert Get(c, LongForm) == Get(d, LongForm) && Get(c, MultiLine) == Get(d, MultiLine);
    assert Get(c, DoubleQuotes) == Get(d, DoubleQuotes) && Get(c, Continuation) == Get(d, Continuation);
    assert Get(c, Timeout) == Get(d, Timeout) && Get(c, MaxBody) == Get(d, MaxBody);
  }

  /** Each option keeps the invariant. */
  lemma ApplyValid(c: Config, o: Option)
    requires Valid(c)
    ensures Valid(Apply(c, o))
  {
  }

  /** Every option sequence applied to the initial configuration leaves a valid one. */
  lemma {:induction false} ApplyAllValid(c: Config, opts: seq<Option>)
    requires Valid(c)
    ensures Valid(ApplyAll(c, opts))
  {
    if opts != [] {
      ApplyAllValid(c, opts[..|opts| - 1]);
      ApplyValid(ApplyAll(c, opts[..|opts| - 1]), opts[|opts| - 1]);
    }
  }

  /** An option whose fields a later option overwrites leaves no trace; so every option is idempotent. */
  lemma Overwritten(c: Config, first: Option, second: Option)
    requires Writes(first) <= Writes(second)
    ensures Apply(Apply(c, first), second) == Apply(c, second)
  {
    forall f ensures Get(Apply(Apply(c, first), second), f) == Get(Apply(c, second), f) {
      ApplyFrame(c, first, f);
      ApplyFrame(Apply(c, first), second, f);
      ApplyFrame(c, second, f);
    }
    ConfigExtensional(Apply(Apply(c, first), second), Apply(c, second));
  }

  lemma Idempotent(c: Config, o: Option)
    ensures Apply(Apply(c, o), o) == Apply(c, o)
  {
    Overwritten(c, o, o);
  }

  /** Options that write disjoint fields commute. */
  lemma DisjointCommute(c: Config, o1: Option, o2: Option)
    requires Writes(o1) !! Writes(o2)
    ensures Apply(Apply(c, o1), o2) == Apply(Apply(c, o2), o1)
  {
    forall f ensures Get(Apply(Apply(c, o1), o2), f) == Get(Apply(Apply(c, o2), o1), f) {
      ApplyFrame(c, o1, f);
      ApplyFrame(Apply(c, o1), o2, f);
      ApplyFrame(c, o2, f);
      ApplyFrame(Apply(c, o2), o1, f);
    }
    ConfigExtensional(Apply(Apply(c, o1), o2), Apply(Apply(c, o2), o1));
  }

  /** Last write wins: a field holds what the last option writing it stored. */
  lemma {:induction false} LastWriteWins(c: Config, opts: seq<Option>, i: nat, f: Field)
    requires i < |opts| && f in Writes(opts[i])
    requires forall j :: i < j < |opts| ==> f !in Writes(opts[j])
    ensures Get(ApplyAll(c, opts), f) == Written(opts[i], f)
  {
    var init := opts[..|opts| - 1];
    ApplyFrame(ApplyAll(c, init), opts[|opts| - 1], f);
    if i < |opts| - 1 {
      LastWriteWins(c, init, i, f);
    }
  }

  /** A field no option writes keeps its initial value. */
  lemma {:induction false} Untouched(c: Config, opts: seq<Option>, f: Field)
    requires forall j :: 0 <= j < |opts| ==> f !in Writes(opts[j])
    ensures Get(ApplyAll(c, opts), f) == Get(c, f)
  {
    if opts != [] {
      var init := opts[..|opts| - 1];
      ApplyFrame(ApplyAll(c, init), opts[|opts| - 1], f);
      Untouched(c, init, f);
    }
  }

  /** A later multi-line option replaces the continuation; a non-positive limit restores the default. */
  lemma OrderExamples()
    ensures ApplyAll(Initial(), [WithMultiLine, WithWindowsMultiLine]).style.lineContinuation == "^"
    ensures ApplyAll(Initial(), [WithMaxBodySize(10), WithMaxBodySize(0)]).maxBodySize == 1024
  {
    var a := [WithMultiLine, WithWindowsMultiLine];
    assert a[..1] == [WithMultiLine] && [WithMultiLine][..0] == [];
    var b := [WithMaxBodySize(10), WithMaxBodySize(0)];
    assert b[..1] == [WithMaxBodySize(10)] && [WithMaxBodySize(10)][..0] == [];
  }
}
