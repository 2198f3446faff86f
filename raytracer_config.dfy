/**
 * Command-line configuration of the ray-tracing demo (src/apps/raytracerdemo/main.cpp):
 * the `RaytracerConfig` constructor, which overrides defaults from key/value
 * arguments, and the early exits at the start of `main`.
 *
 * The base class `Config` (splitting argv into key/value arguments, deciding whether
 * help was asked for, printing help) is not part of this model: its argument list,
 * its help entries and its help flag are inputs here.
 */
module RaytracerDemo {

  import opened Wrappers

  /** One key with its values, as the base configuration splits the command line. */
  datatype Argument = Argument(key: string, values: seq<string>)

  /** One entry of the help text: key, short key, description, value names. */
  datatype HelpEntry = HelpEntry(key: string, shortKey: string, description: string, values: seq<string>)

  datatype RaytracerConfig = RaytracerConfig(
    width: nat,
    height: nat,
    samples: nat,
    depth: nat,
    outputPath: string,
    scene: string,
    infos: seq<HelpEntry>)

  const DefaultSide: nat := 1024
  const DefaultSamples: nat := 8
  const DefaultDepth: nat := 5

  /** Largest value std::stoi returns without throwing (a 32-bit int). */
  const IntMax: nat := 0x7fff_ffff

  // ---------------------------------------------------------------------------
  // Decimal conversion: std::stoi on digit strings, std::to_string on naturals.

  predicate IsDigits(s: string)
  {
    |s| > 0 && forall i :: 0 <= i < |s| ==> '0' <= s[i] <= '9'
  }

  function DecimalValue(s: string): nat
    requires forall i :: 0 <= i < |s| ==> '0' <= s[i] <= '9'
  {
    if s == [] then 0 else DecimalValue(s[..|s| - 1]) * 10 + (s[|s| - 1] - '0') as nat
  }

  /** The strings std::stoi converts without throwing and without a sign. */
  predicate Parsable(s: string)
  {
    IsDigits(s) && DecimalValue(s) <= IntMax
  }

  /** std::stoi on a parsable string: its decimal value, which std::to_string writes back unchanged when unpadded. */
  function Stoi(s: string): (n: nat)
    requires Parsable(s)
    ensures n <= IntMax
    ensures |s| == 1 || s[0] != '0' ==> ToString(n) == s
  {
    if |s| == 1 || s[0] != '0' then
      CanonicalRoundTrip(s);
      DecimalValue(s)
    else
      DecimalValue(s)
  }

  function Digit(d: nat): (c: char)
    requires d < 10
  {
    "0123456789"[d]
  }

  /** std::to_string of a non-negative number: its decimal digits, no leading zero. */
  function ToString(n: nat): (s: string)
    ensures IsDigits(s)
    ensures |s| > 1 ==> s[0] != '0'
  {
    if n < 10 then [Digit(n)] else ToString(n / 10) + [Digit(n % 10)]
  }

  /** Reading back what std::to_string wrote gives the number again. */
  lemma {:induction false} ToStringRoundTrip(n: nat)
    ensures DecimalValue(ToString(n)) == n
  {
    var s := ToString(n);
    if n >= 10 {
      assert s[..|s| - 1] == ToString(n / 10);
      ToStringRoundTrip(n / 10);
    }
  }

  /** Every number std::stoi accepts is read back from what std::to_string writes for it. */
  lemma StoiRoundTrip(n: nat)
    requires n <= IntMax
    ensures Parsable(ToString(n)) && Stoi(ToString(n)) == n
  {
    ToStringRoundTrip(n);
  }

  lemma DigitOf(c: char)
    requires '0' <= c <= '9'
    ensures Digit((c - '0') as nat) == c
  {
  }

  /** A digit string without a leading zero has a value of at least one. */
  lemma {:induction false} Positive(s: string)
    requires IsDigits(s) && s[0] != '0'
    ensures DecimalValue(s) >= 1
  {
    if |s| > 1 {
      Positive(s[..|s| - 1]);
    }
  }

  /** A digit string without a leading zero is exactly what std::to_string writes for its value. */
  lemma {:induction false} CanonicalRoundTrip(s: string)
    requires IsDigits(s) && (|s| == 1 || s[0] != '0')
    ensures ToString(DecimalValue(s)) == s
  {
    var n := |s| - 1;
    var d := (s[n] - '0') as nat;
    DigitOf(s[n]);
    if n > 0 {
      var p := s[..n];
      var q := DecimalValue(p);
      assert DecimalValue(s) == q * 10 + d;
      Positive(p);
      DivMod10(q, d);
      CanonicalRoundTrip(p);
      assert ToString(q * 10 + d) == ToString(q) + [Digit(d)];
      assert s == p + [s[n]];
    }
  }

  lemma DivMod10(q: nat, d: nat)
    requires d < 10
    ensures (q * 10 + d) / 10 == q && (q * 10 + d) % 10 == d
  {
  }

  // ---------------------------------------------------------------------------
  // The override rules, stated from the end of the argument list.

  /** A key is honoured only when it comes with at least `minValues` values. */
  predicate Applies(a: Argument, key: string, minValues: nat)
  {
    a.key == key && |a.values| >= minValues
  }

  /** Index of the last argument that sets `key`; later arguments win. */
  function LastIndex(args: seq<Argument>, key: string, minValues: nat): (r: Option<nat>)
    ensures r.Some? ==> r.value < |args| && Applies(args[r.value], key, minValues)
    ensures r.Some? ==> forall j :: r.value < j < |args| ==> !Applies(args[j], key, minValues)
    ensures r.None? ==> forall j :: 0 <= j < |args| ==> !Applies(args[j], key, minValues)
  {
    if args == [] then None
    else if Applies(args[|args| - 1], key, minValues) then Some(|args| - 1)
    else LastIndex(args[..|args| - 1], key, minValues)
  }

  /** What the constructor demands of the numbers it converts (std::stoi throws otherwise). */
  predicate WellFormed(args: seq<Argument>)
  {
    forall i :: 0 <= i < |args| ==>
      && (Applies(args[i], "samples", 1) ==> Parsable(args[i].values[0]))
      && (Applies(args[i], "depth", 1) ==> Parsable(args[i].values[0]))
      && (Applies(args[i], "wxh", 2) ==> Parsable(args[i].values[0]) && Parsable(args[i].values[1]))
  }

  function Samples(args: seq<Argument>): nat
    requires WellFormed(args)
  {
    match LastIndex(args, "samples", 1)
    case Some(i) => Stoi(args[i].values[0])
    case None => DefaultSamples
  }

  function Depth(args: seq<Argument>): nat
    requires WellFormed(args)
  {
    match LastIndex(args, "depth", 1)
    case Some(i) => Stoi(args[i].values[0])
    case None => DefaultDepth
  }

  function Scene(args: seq<Argument>): string
  {
    match LastIndex(args, "scene", 1)
    case Some(i) => args[i].values[0]
    case None => ""
  }

  /** The output path given on the command line, empty when none was. */
  function GivenOutput(args: seq<Argument>): string
  {
    match LastIndex(args, "output", 1)
    case Some(i) => args[i].values[0]
    case None => ""
  }

  function Width(args: seq<Argument>): nat
    requires WellFormed(args)
  {
    match LastIndex(args, "wxh", 2)
    case Some(i) => Stoi(args[i].values[0])
    case None => DefaultSide
  }

  function Height(args: seq<Argument>): nat
    requires WellFormed(args)
  {
    match LastIndex(args, "wxh", 2)
    case Some(i) => Stoi(args[i].values[1])
    case None => DefaultSide
  }

  /** "./test_<scene>_<samples>_<depth>_<w>x<h>.png" */
  function DefaultOutput(scene: string, samples: nat, depth: nat, width: nat, height: nat): string
  {
    "./test_" + scene + "_" + ToString(samples) + "_" + ToString(depth)
      + "_" + ToString(width) + "x" + ToString(height) + ".png"
  }

  /** The six help entries the constructor appends, in order. */
  const RaytracerHelp: seq<HelpEntry> := [
    HelpEntry("", "", "Raytracer", []),
    HelpEntry("wxh", "", "Dimensions of the image.", ["width", "height"]),
    HelpEntry("samples", "", "Number of samples per pixel.", ["int"]),
    HelpEntry("depth", "", "Maximum path depth.", ["int"]),
    HelpEntry("scene", "", "Name of the scene to load.", ["string"]),
    HelpEntry("output", "", "Path for the output image.", ["path"])
  ]

  lemma WellFormedPrefix(args: seq<Argument>, n: nat)
    requires WellFormed(args) && n <= |args|
    ensures WellFormed(args[..n])
  {
  }

  /** Extending the parsed prefix by one argument changes exactly the setting that argument overrides. */
  lemma ParseStep(args: seq<Argument>, i: nat)
    requires WellFormed(args) && i < |args|
    ensures WellFormed(args[..i]) && WellFormed(args[..i + 1])
    ensures Samples(args[..i + 1]) == if Applies(args[i], "samples", 1) then Stoi(args[i].values[0]) else Samples(args[..i])
    ensures Depth(args[..i + 1]) == if Applies(args[i], "depth", 1) then Stoi(args[i].values[0]) else Depth(args[..i])
    ensures Width(args[..i + 1]) == if Applies(args[i], "wxh", 2) then Stoi(args[i].values[0]) else Width(args[..i])
    ensures Height(args[..i + 1]) == if Applies(args[i], "wxh", 2) then Stoi(args[i].values[1]) else Height(args[..i])
  {
    WellFormedPrefix(args, i);
    WellFormedPrefix(args, i + 1);
    LastIndexStep(args, i, "samples", 1);
    LastIndexStep(args, i, "depth", 1);
    LastIndexStep(args, i, "wxh", 2);
  }

  /** The same for the scene name and the output path, which are taken as given. */
  lemma NameStep(args: seq<Argument>, i: nat)
    requires i < |args|
    ensures Scene(args[..i + 1]) == if Applies(args[i], "scene", 1) then args[i].values[0] else Scene(args[..i])
    ensures GivenOutput(args[..i + 1]) == if Applies(args[i], "output", 1) then args[i].values[0] else GivenOutput(args[..i])
  {
    LastIndexStep(args, i, "scene", 1);
    LastIndexStep(args, i, "output", 1);
  }

  lemma LastIndexStep(args: seq<Argument>, i: nat, key: string, minValues: nat)
    requires i < |args|
    ensures LastIndex(args[..i + 1], key, minValues)
      == if Applies(args[i], key, minValues) then Some(i) else LastIndex(args[..i], key, minValues)
  {
    assert args[..i + 1][..i] == args[..i];
  }

  /**
   * The RaytracerConfig constructor: each recognised key with enough values overwrites
   * its field, so the last such argument wins and the rest keep their defaults; an
   * output path still empty afterwards is replaced by the default name built from the
   * final settings; six help entries follow the base configuration's.
   */
  method Parse(args: seq<Argument>, baseInfos: seq<HelpEntry>) returns (c: RaytracerConfig)
    requires WellFormed(args)
    ensures c.samples == Samples(args) && c.depth == Depth(args)
    ensures c.width == Width(args) && c.height == Height(args)
    ensures c.scene == Scene(args)
    ensures GivenOutput(args) != "" ==> c.outputPath == GivenOutput(args)
    ensures GivenOutput(args) == "" ==>
      c.outputPath == DefaultOutput(c.scene, c.samples, c.depth, c.width, c.height)
    ensures c.infos == baseInfos + RaytracerHelp
  {
    var width, height, samples, depth := DefaultSide, DefaultSide, DefaultSamples, DefaultDepth;
    var outputPath, scene := "", "";
    var i := 0;
    while i < |args|
      invariant 0 <= i <= |args|
      invariant WellFormed(args[..i])
      invariant samples == Samples(args[..i]) && depth == Depth(args[..i])
      invariant width == Width(args[..i]) && height == Height(args[..i])
      invariant scene == Scene(args[..i]) && outputPath == GivenOutput(args[..i])
    {
      ParseStep(args, i);
      NameStep(args, i);
      var key, values := args[i].key, args[i].values;
      if key == "samples" && |values| >= 1 {
        samples := Stoi(values[0]);
      } else if key == "depth" && |values| >= 1 {
        depth := Stoi(values[0]);
      } else if key == "scene" && |values| >= 1 {
        scene := values[0];
      } else if key == "output" && |values| >= 1 {
        outputPath := values[0];
      } else if key == "wxh" && |values| >= 2 {
        width := Stoi(values[0]);
        height := Stoi(values[1]);
      }
      i := i + 1;
    }
    assert args[..i] == args;
    if outputPath == "" {
      outputPath := DefaultOutput(scene, samples, depth, width, height);
    }
    c := RaytracerConfig(width, height, samples, depth, outputPath, scene, baseInfos + RaytracerHelp);
  }

  /** How `main` ends before rendering, or the configuration it renders with. */
  datatype Launch = Exit(code: int) | Render(config: RaytracerConfig)

  /**
   * The start of `main`: the configuration is built first; help wins with status 0,
   * then a missing scene name ends the program with status 1; otherwise rendering
   * starts with a non-empty scene name.
   */
  method Start(args: seq<Argument>, baseInfos: seq<HelpEntry>, showHelp: bool) returns (launch: Launch)
    requires WellFormed(args)
    ensures showHelp ==> launch == Exit(0)
    ensures !showHelp && Scene(args) == "" ==> launch == Exit(1)
    ensures !showHelp && Scene(args) != "" ==>
      launch.Render? && launch.config.scene == Scene(args) && launch.config.scene != ""
    ensures launch.Render? ==> launch.config.samples == Samples(args) && launch.config.depth == Depth(args)
    ensures launch.Render? ==> launch.config.width == Width(args) && launch.config.height == Height(args)
    ensures launch.Render? && GivenOutput(args) != "" ==> launch.config.outputPath == GivenOutput(args)
    ensures launch.Render? && GivenOutput(args) == "" ==>
      launch.config.outputPath == DefaultOutput(Scene(args), Samples(args), Depth(args), Width(args), Height(args))
    ensures launch.Render? ==> launch.config.infos == baseInfos + RaytracerHelp
  {
    var config := Parse(args, baseInfos);
    if showHelp {
      return Exit(0);
    }
    if config.scene == "" {
      return Exit(1);
    }
    launch := Render(config);
  }
}
