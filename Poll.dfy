/** One poll cycle, pollVars (exporter.go:88-123), and the exporter state it
    updates: the live gauge per variable name (lifepo4weredVars), the four
    tracked summaries (lifepo4weredSummaries) and the output-power summary
    (lifepo4weredPOut), exporter.go:25-39.

    Running `lifepo4wered-cli get` is not modelled: its outcome is an input.
    So is the line splitting of bufio.Scanner: the input holds the lines it
    yielded and whether it then reported an error. log.Fatalf becomes a
    failure result; the updates made before it stay made, as they do in the
    process until it exits. */
module Poll {
  import opened ExtReal
  import opened Summary
  import opened LineScan

  /** The outcome of running the producer and splitting its output into lines. */
  datatype CommandOutput = ExecFailed | Output(lines: seq<string>, scanError: bool)

  /** How a poll cycle ended: normally, or at one of the three log.Fatalf calls. */
  datatype PollResult = Polled | CommandFailed | MalformedLine(index: nat) | ScanFailed

  /** The keys of lifepo4weredSummaries (exporter.go:33-38). */
  const Tracked: set<string> := {"VIN", "VOUT", "VBAT", "IOUT"}

  /** The two variables whose product is the output power (exporter.go:113-116). */
  predicate IsPowerFactor(name: string)
  {
    name == "VOUT" || name == "IOUT"
  }

  predicate AllScan(lines: seq<string>)
  {
    forall j :: 0 <= j < |lines| ==> ParseLine(lines[j]).Some?
  }

  /** Number of lines that scan before the first that does not. */
  function ScannedPrefix(lines: seq<string>): (n: nat)
    ensures n <= |lines| && AllScan(lines[..n])
    ensures n < |lines| ==> ParseLine(lines[n]).None?
  {
    if lines == [] || ParseLine(lines[0]).None? then 0
    else
      var n := 1 + ScannedPrefix(lines[1..]);
      AllScanCons(lines, n);
      n
  }

  /** Lines that scan, preceded by one more that scans, all scan. */
  lemma AllScanCons(lines: seq<string>, n: nat)
    requires 0 < n <= |lines| && ParseLine(lines[0]).Some? && AllScan(lines[1..][..n - 1])
    ensures AllScan(lines[..n])
  {
    forall j | 0 <= j < n ensures ParseLine(lines[..n][j]).Some? {
      if j > 0 {
        assert lines[..n][j] == lines[1..][..n - 1][j - 1];
      }
    }
  }

  /** The samples of lines that all scan, in order. */
  function Samples(lines: seq<string>): (s: seq<Sample>)
    requires AllScan(lines)
    ensures |s| == |lines|
  {
    if lines == [] then []
    else Samples(lines[..|lines| - 1]) + [ParseLine(lines[|lines| - 1]).value]
  }

  /** Each sample is the scan of the line at the same index. */
  lemma {:induction false} SamplesAreScans(lines: seq<string>)
    requires AllScan(lines)
    ensures forall j :: 0 <= j < |lines| ==> Samples(lines)[j] == ParseLine(lines[j]).value
  {
    if lines != [] {
      var init := lines[..|lines| - 1];
      assert AllScan(init) by {
        forall j | 0 <= j < |init| ensures ParseLine(init[j]).Some? {
          assert init[j] == lines[j];
        }
      }
      SamplesAreScans(init);
      forall j | 0 <= j < |init| ensures Samples(lines)[j] == ParseLine(lines[j]).value {
        assert init[j] == lines[j];
      }
    }
  }

  /** The values the samples give to `name`, in order. */
  function Readings(samples: seq<Sample>, name: string): (values: seq<int>)
  {
    if samples == [] then []
    else
      var last := samples[|samples| - 1];
      Readings(samples[..|samples| - 1], name) + (if last.name == name then [last.value] else [])
  }

  function AsReals(xs: seq<int>): (r: seq<real>)
    ensures |r| == |xs| && forall j :: 0 <= j < |xs| ==> r[j] == xs[j] as real
  {
    if xs == [] then [] else AsReals(xs[..|xs| - 1]) + [xs[|xs| - 1] as real]
  }

  function Product(xs: seq<int>): (p: int)
  {
    if xs == [] then 1 else Product(xs[..|xs| - 1]) * xs[|xs| - 1]
  }

  /** The live gauges after the samples are written in order. */
  function Gauges(live: map<string, real>, samples: seq<Sample>): (gauges: map<string, real>)
  {
    if samples == [] then live
    else
      var last := samples[|samples| - 1];
      Gauges(live, samples[..|samples| - 1])[last.name := last.value as real]
  }

  /** The pout accumulator after the samples: seeded at 1, multiplied by each
      tracked VOUT or IOUT value. */
  function Pout(samples: seq<Sample>): (pout: int)
  {
    if samples == [] then 1
    else
      var last := samples[|samples| - 1];
      Pout(samples[..|samples| - 1]) * (if last.name in Tracked && IsPowerFactor(last.name) then last.value else 1)
  }

  /** The value of the cycle's power observation, in mW: the accumulator is
      in mV * mA = uW, and 1000 uW = 1 mW (exporter.go:122). */
  function PowerReading(samples: seq<Sample>): (mw: real)
  {
    (Pout(samples) as real) / 1000.0
  }

  /** One more scanned line adds its sample at the end. */
  lemma SamplesStep(lines: seq<string>, i: nat)
    requires i < |lines| && AllScan(lines[..i]) && ParseLine(lines[i]).Some?
    ensures AllScan(lines[..i + 1])
    ensures Samples(lines[..i + 1]) == Samples(lines[..i]) + [ParseLine(lines[i]).value]
  {
    assert lines[..i + 1][..i] == lines[..i];
  }

  /** A line that does not scan, after lines that all do, is where scanning stops. */
  lemma {:induction false} ScannedPrefixStops(lines: seq<string>, i: nat)
    requires i < |lines| && AllScan(lines[..i]) && ParseLine(lines[i]).None?
    ensures ScannedPrefix(lines) == i
  {
    if i > 0 {
      assert lines[..i][0] == lines[0];
      assert lines[1..][..i - 1] == lines[..i][1..];
      ScannedPrefixStops(lines[1..], i - 1);
    }
  }

  /** When every line scans, scanning reaches the end. */
  lemma {:induction false} ScannedPrefixAll(lines: seq<string>)
    requires AllScan(lines)
    ensures ScannedPrefix(lines) == |lines|
  {
    if lines != [] {
      assert lines[..1][0] == lines[0];
      ScannedPrefixAll(lines[1..]);
    }
  }

  /** One more sample extends the observations of `name` by its value when it
      carries that name. */
  lemma WindowStep(before: seq<real>, samples: seq<Sample>, x: Sample, name: string)
    ensures before + AsReals(Readings(samples + [x], name))
         == before + AsReals(Readings(samples, name)) + (if x.name == name then [x.value as real] else [])
  {
    assert (samples + [x])[..|samples|] == samples;
    var r := Readings(samples, name);
    if x.name == name {
      assert (r + [x.value])[..|r|] == r;
    } else {
      assert r + [] == r;
    }
  }

  /** One more sample overwrites the live gauge of its name. */
  lemma GaugesStep(live: map<string, real>, samples: seq<Sample>, x: Sample)
    ensures Gauges(live, samples + [x]) == Gauges(live, samples)[x.name := x.value as real]
  {
    assert (samples + [x])[..|samples|] == samples;
  }

  /** One more sample multiplies the power accumulator by its value when it is a power factor. */
  lemma PoutStep(samples: seq<Sample>, x: Sample)
    ensures Pout(samples + [x]) == Pout(samples) * (if x.name in Tracked && IsPowerFactor(x.name) then x.value else 1)
  {
    assert (samples + [x])[..|samples|] == samples;
  }

  /** Last write wins: a name has a live gauge when it had one before or some
      sample carries it, and then its value is that of the last such sample,
      or the earlier value when no sample carries it. */
  lemma {:induction false} GaugesLastWriteWins(live: map<string, real>, samples: seq<Sample>, name: string)
    ensures name in Gauges(live, samples) <==> name in live || Readings(samples, name) != []
    ensures Readings(samples, name) != [] ==>
              Gauges(live, samples)[name] == Readings(samples, name)[|Readings(samples, name)| - 1] as real
    ensures Readings(samples, name) == [] && name in live ==> Gauges(live, samples)[name] == live[name]
  {
    if samples != [] {
      GaugesLastWriteWins(live, samples[..|samples| - 1], name);
    }
  }

  /** The live gauges after a cycle are those before it and one per name
      some sample carries. */
  lemma {:induction false} GaugesKeys(live: map<string, real>, samples: seq<Sample>)
    ensures Gauges(live, samples).Keys == live.Keys + (set j | 0 <= j < |samples| :: samples[j].name)
  {
    if samples != [] {
      var init := samples[..|samples| - 1];
      GaugesKeys(live, init);
      var names := set j | 0 <= j < |samples| :: samples[j].name;
      var before := set j | 0 <= j < |init| :: init[j].name;
      assert names == before + {samples[|samples| - 1].name} by {
        forall n | n in names ensures n in before + {samples[|samples| - 1].name} {
          var j :| 0 <= j < |samples| && samples[j].name == n;
          if j < |init| {
            assert init[j] == samples[j];
          }
        }
        forall n | n in before ensures n in names {
          var j :| 0 <= j < |init| && init[j].name == n;
          assert samples[j] == init[j];
        }
      }
    }
  }

  /** The accumulator is seeded at 1 (exporter.go:94): a cycle without a VOUT
      or IOUT line leaves it at 1, and its power observation is 0.001 mW. */
  lemma {:induction false} NoPowerFactors(samples: seq<Sample>)
    requires forall j :: 0 <= j < |samples| ==> !IsPowerFactor(samples[j].name)
    ensures Pout(samples) == 1 && PowerReading(samples) == 0.001
  {
    if samples != [] {
      var init := samples[..|samples| - 1];
      assert forall j :: 0 <= j < |init| ==> init[j] == samples[j];
      NoPowerFactors(init);
    }
  }

  /** The accumulator is zero exactly when some VOUT or IOUT reading is zero. */
  lemma {:induction false} PoutZero(samples: seq<Sample>)
    ensures Pout(samples) == 0 <==>
            exists j :: 0 <= j < |samples| && IsPowerFactor(samples[j].name) && samples[j].value == 0
  {
    if samples != [] {
      var init := samples[..|samples| - 1];
      var last := samples[|samples| - 1];
      PoutZero(init);
      var f := if last.name in Tracked && IsPowerFactor(last.name) then last.value else 1;
      assert Pout(samples) == Pout(init) * f;
      assert Pout(samples) == 0 <==> Pout(init) == 0 || f == 0;
      if exists j :: 0 <= j < |init| && IsPowerFactor(init[j].name) && init[j].value == 0 {
        var j :| 0 <= j < |init| && IsPowerFactor(init[j].name) && init[j].value == 0;
        assert samples[j] == init[j];
      }
      if exists j :: 0 <= j < |samples| && IsPowerFactor(samples[j].name) && samples[j].value == 0 {
        var j :| 0 <= j < |samples| && IsPowerFactor(samples[j].name) && samples[j].value == 0;
        if j < |init| {
          assert init[j] == samples[j];
        }
      }
    }
  }

  lemma {:induction false} ProductAppend(xs: seq<int>, x: int)
    ensures Product(xs + [x]) == Product(xs) * x
  {
    assert (xs + [x])[..|xs|] == xs;
  }

  /** The power accumulator is the product of every VOUT reading and every
      IOUT reading of the cycle; other names contribute nothing, and a name
      that does not appear contributes a factor of 1. */
  lemma {:induction false} PoutIsProductOfFactors(samples: seq<Sample>)
    ensures Pout(samples) == Product(Readings(samples, "VOUT")) * Product(Readings(samples, "IOUT"))
    ensures Readings(samples, "VOUT") == [] ==> Pout(samples) == Product(Readings(samples, "IOUT"))
    ensures Readings(samples, "IOUT") == [] ==> Pout(samples) == Product(Readings(samples, "VOUT"))
  {
    if samples != [] {
      var init := samples[..|samples| - 1];
      var last := samples[|samples| - 1];
      PoutIsProductOfFactors(init);
      var vs, cs := Readings(init, "VOUT"), Readings(init, "IOUT");
      var v, c := Product(vs), Product(cs);
      assert Pout(samples) == v * c * (if last.name in Tracked && IsPowerFactor(last.name) then last.value else 1);
      if last.name == "VOUT" {
        assert Readings(samples, "VOUT") == vs + [last.value];
        assert Readings(samples, "IOUT") == cs by { assert cs + [] == cs; }
        ProductAppend(vs, last.value);
        MulSwap(v, c, last.value);
      } else if last.name == "IOUT" {
        assert Readings(samples, "VOUT") == vs by { assert vs + [] == vs; }
        assert Readings(samples, "IOUT") == cs + [last.value];
        ProductAppend(cs, last.value);
        MulAssoc(v, c, last.value);
      } else {
        assert Readings(samples, "VOUT") == vs by { assert vs + [] == vs; }
        assert Readings(samples, "IOUT") == cs by { assert cs + [] == cs; }
      }
    }
  }

  lemma MulSwap(a: int, b: int, c: int)
    ensures a * b * c == (a * c) * b
  {
  }

  lemma MulAssoc(a: int, b: int, c: int)
    ensures a * b * c == a * (b * c)
  {
  }

  /** With exactly one VOUT and one IOUT reading, in either order and among any
      other lines, the power observation is VOUT * IOUT / 1000 (mV * mA = uW). */
  lemma PowerOfOneVoltageAndCurrent(samples: seq<Sample>, mv: int, ma: int)
    requires Readings(samples, "VOUT") == [mv] && Readings(samples, "IOUT") == [ma]
    ensures PowerReading(samples) == ((mv * ma) as real) / 1000.0
  {
    PoutIsProductOfFactors(samples);
    assert Product([mv]) == mv by { assert [mv][..0] == []; }
    assert Product([ma]) == ma by { assert [ma][..0] == []; }
  }

  /** Two canonical lines scan to their two samples, in order. */
  lemma SamplesOfTwoLines(x: Sample, y: Sample)
    requires IsToken(x.name) && MinInt <= x.value <= MaxInt
    requires IsToken(y.name) && MinInt <= y.value <= MaxInt
    ensures var lines := [FormatSample(x), FormatSample(y)];
            AllScan(lines) && Samples(lines) == [x, y]
  {
    ParseFormatRoundTrip(x);
    ParseFormatRoundTrip(y);
    var lines := [FormatSample(x), FormatSample(y)];
    assert lines[..1] == [FormatSample(x)];
    assert lines[..1][..0] == [];
  }

  /** The lines `VOUT = 2000` and `IOUT = 500` yield a power observation of 1000 mW. */
  lemma PowerExample()
    ensures var lines := [FormatSample(Sample("VOUT", 2000)), FormatSample(Sample("IOUT", 500))];
            AllScan(lines) && PowerReading(Samples(lines)) == 1000.0
  {
    SamplesOfTwoLines(Sample("VOUT", 2000), Sample("IOUT", 500));
    PowerOfVoltageThenCurrent(2000, 500);
  }

  /** The samples VOUT then IOUT give the power observation VOUT * IOUT / 1000. */
  lemma PowerOfVoltageThenCurrent(mv: int, ma: int)
    ensures PowerReading([Sample("VOUT", mv), Sample("IOUT", ma)]) == ((mv * ma) as real) / 1000.0
  {
    var s := [Sample("VOUT", mv), Sample("IOUT", ma)];
    assert s[..1][..0] == [];
    assert "VOUT"[0] != "IOUT"[0];
    assert Readings(s[..1], "VOUT") == [mv];
    assert Readings(s[..1], "IOUT") == [] + [];
    assert Readings(s, "VOUT") == [mv] + [];
    assert Readings(s, "IOUT") == [] + [ma];
    PowerOfOneVoltageAndCurrent(s, mv, ma);
  }

  /** The process-wide metric state of the exporter. */
  class Exporter {
    /** lifepo4weredVars: the live gauge of every variable name seen, by name. */
    var live: map<string, real>
    /** The summaries of lifepo4weredSummaries, one per tracked variable. */
    const vin: LiteSummary
    const vout: LiteSummary
    const vbat: LiteSummary
    const iout: LiteSummary
    /** lifepo4weredPOut. */
    const power: LiteSummary

    /** lifepo4weredSummaries: the tracked variable names and their summaries. */
    function Summaries(): (m: map<string, LiteSummary>)
      ensures m.Keys == Tracked
    {
      map["VIN" := vin, "VOUT" := vout, "VBAT" := vbat, "IOUT" := iout]
    }

    ghost predicate Valid()
      reads this, vin, vout, vbat, iout, power
    {
      && vin != vout && vin != vbat && vin != iout && vin != power
      && vout != vbat && vout != iout && vout != power
      && vbat != iout && vbat != power
      && iout != power
      && vin.Valid() && vout.Valid() && vbat.Valid() && iout.Valid() && power.Valid()
    }

    /** The package-level metric variables at start-up (exporter.go:25-39). */
    constructor ()
      ensures Valid() && live == map[]
      ensures vin.window == [] && vout.window == [] && vbat.window == [] && iout.window == []
      ensures power.window == []
      ensures vin.desc == Desc("lifepo4wered_" + "voltage_in", "Voltage in (mV)", ["stat"])
      ensures vout.desc == Desc("lifepo4wered_" + "voltage_out", "Voltage out (mV)", ["stat"])
      ensures vbat.desc == Desc("lifepo4wered_" + "voltage_bat", "Battery voltage (mV)", ["stat"])
      ensures iout.desc == Desc("lifepo4wered_" + "current_out", "Current out (mA)", ["stat"])
      ensures power.desc == Desc("lifepo4wered_" + "power_out", "Power out (mW)", ["stat"])
    {
      vin := new LiteSummary("voltage_in", "Voltage in (mV)");
      vout := new LiteSummary("voltage_out", "Voltage out (mV)");
      vbat := new LiteSummary("voltage_bat", "Battery voltage (mV)");
      iout := new LiteSummary("current_out", "Current out (mA)");
      power := new LiteSummary("power_out", "Power out (mW)");
      live := map[];
    }

    /** The body of the scan loop for one scanned line (exporter.go:105-116):
        set the live gauge, and for a tracked name observe the value and, for
        VOUT and IOUT, multiply it into the power accumulator. */
    method Record(sample: Sample, pout: int) returns (pout': int)
      requires Valid()
      modifies this, vin, vout, vbat, iout
      ensures Valid()
      ensures live == old(live)[sample.name := sample.value as real]
      ensures vin.window == old(vin.window) + (if sample.name == "VIN" then [sample.value as real] else [])
      ensures vout.window == old(vout.window) + (if sample.name == "VOUT" then [sample.value as real] else [])
      ensures vbat.window == old(vbat.window) + (if sample.name == "VBAT" then [sample.value as real] else [])
      ensures iout.window == old(iout.window) + (if sample.name == "IOUT" then [sample.value as real] else [])
      ensures pout' == pout * (if sample.name in Tracked && IsPowerFactor(sample.name) then sample.value else 1)
    {
      pout' := pout;
      live := live[sample.name := sample.value as real];
      var summaries := Summaries();
      if sample.name !in summaries {
        return;
      }
      var v := summaries[sample.name];
      assert v == (if sample.name == "VIN" then vin else if sample.name == "VOUT" then vout
                   else if sample.name == "VBAT" then vbat else iout);
      v.Observe(sample.value as real);
      if sample.name == "VOUT" || sample.name == "IOUT" {
        pout' := pout * sample.value;
      }
    }

    /** The live gauges and the four tracked windows are those of `applied`
        written over the state `live0`, `vin0`, `vout0`, `vbat0`, `iout0`. */
    ghost predicate Reflects(live0: map<string, real>, vin0: seq<real>, vout0: seq<real>,
                             vbat0: seq<real>, iout0: seq<real>, applied: seq<Sample>)
      reads this, vin, vout, vbat, iout
    {
      && live == Gauges(live0, applied)
      && vin.window == vin0 + AsReals(Readings(applied, "VIN"))
      && vout.window == vout0 + AsReals(Readings(applied, "VOUT"))
      && vbat.window == vbat0 + AsReals(Readings(applied, "VBAT"))
      && iout.window == iout0 + AsReals(Readings(applied, "IOUT"))
    }

    /** Record, stated against the specification functions: after the samples
        `applied`, one more scanned sample leaves the state of `applied + [sample]`. */
    method Apply(sample: Sample, pout: int, ghost applied: seq<Sample>, ghost live0: map<string, real>,
                 ghost vin0: seq<real>, ghost vout0: seq<real>, ghost vbat0: seq<real>, ghost iout0: seq<real>)
      returns (pout': int)
      requires Valid() && Reflects(live0, vin0, vout0, vbat0, iout0, applied) && pout == Pout(applied)
      modifies this, vin, vout, vbat, iout
      ensures Valid() && Reflects(live0, vin0, vout0, vbat0, iout0, applied + [sample])
      ensures pout' == Pout(applied + [sample])
    {
      WindowStep(vin0, applied, sample, "VIN");
      WindowStep(vout0, applied, sample, "VOUT");
      WindowStep(vbat0, applied, sample, "VBAT");
      WindowStep(iout0, applied, sample, "IOUT");
      GaugesStep(live0, applied, sample);
      PoutStep(applied, sample);
      pout' := Record(sample, pout);
    }

    /** The scan loop of one poll cycle (exporter.go:99-117): applies the
        lines in order and stops at the first line that does not scan, which
        it reports by its index; `stop` is |lines| when every line scanned. */
    method ScanLines(lines: seq<string>) returns (stop: nat, pout: int)
      requires Valid()
      modifies this, vin, vout, vbat, iout
      ensures Valid()
      ensures stop == ScannedPrefix(lines)
      ensures live == Gauges(old(live), Samples(lines[..stop]))
      ensures vin.window == old(vin.window) + AsReals(Readings(Samples(lines[..stop]), "VIN"))
      ensures vout.window == old(vout.window) + AsReals(Readings(Samples(lines[..stop]), "VOUT"))
      ensures vbat.window == old(vbat.window) + AsReals(Readings(Samples(lines[..stop]), "VBAT"))
      ensures iout.window == old(iout.window) + AsReals(Readings(Samples(lines[..stop]), "IOUT"))
      ensures pout == Pout(Samples(lines[..stop]))
    {
      pout := 1;
      var i := 0;
      ghost var applied: seq<Sample> := [];
      while i < |lines|
        invariant 0 <= i <= |lines| && AllScan(lines[..i])
        invariant applied == Samples(lines[..i])
        invariant Valid()
        invariant Reflects(old(live), old(vin.window), old(vout.window), old(vbat.window), old(iout.window), applied)
        invariant pout == Pout(applied)
      {
        var scanned := ParseLine(lines[i]);
        if scanned.None? {
          ScannedPrefixStops(lines, i);
          return i, pout;
        }
        var sample := scanned.value;
        SamplesStep(lines, i);
        pout := Apply(sample, pout, applied, old(live), old(vin.window), old(vout.window), old(vbat.window), old(iout.window));
        applied := applied + [sample];
        i := i + 1;
      }
      assert lines[..i] == lines;
      ScannedPrefixAll(lines);
      stop := i;
    }

    /** One poll cycle (exporter.go:88-123) over the producer's output. A
        failure ends the cycle at the point where the source calls log.Fatalf,
        keeping the updates already made; only a cycle that reaches the end
        observes the output power, pout / 1000 (mV * mA = uW, 1000 uW = 1 mW). */
    method PollVars(cmd: CommandOutput) returns (r: PollResult)
      requires Valid()
      modifies this, vin, vout, vbat, iout, power
      ensures Valid()
      ensures cmd.ExecFailed? ==>
        && r == CommandFailed && live == old(live) && power.window == old(power.window)
        && vin.window == old(vin.window) && vout.window == old(vout.window)
        && vbat.window == old(vbat.window) && iout.window == old(iout.window)
      ensures cmd.Output? ==>
        var n := ScannedPrefix(cmd.lines);
        var applied := Samples(cmd.lines[..n]);
        && r == (if n < |cmd.lines| then MalformedLine(n) else if cmd.scanError then ScanFailed else Polled)
        && live == Gauges(old(live), applied)
        && vin.window == old(vin.window) + AsReals(Readings(applied, "VIN"))
        && vout.window == old(vout.window) + AsReals(Readings(applied, "VOUT"))
        && vbat.window == old(vbat.window) + AsReals(Readings(applied, "VBAT"))
        && iout.window == old(iout.window) + AsReals(Readings(applied, "IOUT"))
        && power.window == old(power.window) + (if r.Polled? then [PowerReading(applied)] else [])
    {
      if cmd.ExecFailed? {
        return CommandFailed;
      }
      var stop, pout := ScanLines(cmd.lines);
      if stop < |cmd.lines| {
        return MalformedLine(stop);
      }
      if cmd.scanError {
        return ScanFailed;
      }
      var reading := (pout as real) / 1000.0;
      assert reading == PowerReading(Samples(cmd.lines[..stop]));
      power.Observe(reading);
      r := Polled;
    }
  }
}
