/** The build pipeline (dagger/src/main/__init__.py). A container is the
    list of steps it was built with; the steps are recorded, never run. */
module Pipeline {
  import opened Wrappers
  import opened Strings

  const DevelopVersion := "0.1.0-develop"
  const DefaultImage := "ttl.sh/mortenlj-yakup"
  const StaticBase := "cgr.dev/chainguard/static:latest"

  /** `PLATFORM_TARGET`: the Rust target triple for each published platform. */
  const PlatformTarget: map<string, string> :=
    map["linux/amd64" := "x86_64-unknown-linux-musl", "linux/arm64" := "aarch64-unknown-linux-musl"]

  /** The platforms `publish` builds, in order. */
  const Platforms: seq<string> := ["linux/amd64", "linux/arm64"]

  /** `PLATFORM_TARGET.get(platform)`: no target for an absent or unmapped platform. */
  function TargetOf(platform: Option<string>): (t: Option<string>)
    ensures t.Some? <==> platform.Some? && platform.value in PlatformTarget
    ensures platform == Some("linux/amd64") ==> t == Some("x86_64-unknown-linux-musl")
    ensures platform == Some("linux/arm64") ==> t == Some("aarch64-unknown-linux-musl")
  {
    if platform.Some? && platform.value in PlatformTarget then Some(PlatformTarget[platform.value]) else None
  }

  /** Python's truth test on an optional string: false for `None` and "". */
  predicate Truthy(s: Option<string>) {
    s.Some? && s.value != ""
  }

  /** `["--target", target] if target else []`. */
  function TargetArgs(target: Option<string>): (a: seq<string>)
    ensures a == [] <==> !Truthy(target)
    ensures a != [] ==> a == ["--target", target.value]
  {
    if Truthy(target) then ["--target", target.value] else []
  }

  /** `f"{target}"`: Python formats `None` as "None". */
  function Format(s: Option<string>): string {
    match s
    case None => "None"
    case Some(v) => v
  }

  // ------------------------------------------------------------ containers

  datatype Step =
    | Workdir(path: string)
    | Source(path: string)
    | CopyFile(path: string, file: File)
    | Exec(args: seq<string>)
    | Entrypoint(args: seq<string>)

  datatype Container = Container(platform: Option<string>, base: string, steps: seq<Step>)

  /** A file of a container, by path. */
  datatype File = File(container: Container, path: string)

  function Then(c: Container, steps: seq<Step>): Container {
    c.(steps := c.steps + steps)
  }

  /** The commands a list of steps runs, in order. */
  function Execs(steps: seq<Step>): (e: seq<seq<string>>)
    ensures |e| <= |steps|
  {
    if steps == [] then []
    else (if steps[0].Exec? then [steps[0].args] else []) + Execs(steps[1..])
  }

  lemma {:induction false} ExecsAppend(a: seq<Step>, b: seq<Step>)
    ensures Execs(a + b) == Execs(a) + Execs(b)
  {
    if a == [] {
      assert a + b == b;
    } else {
      var head := if a[0].Exec? then [a[0].args] else [];
      assert (a + b)[0] == a[0];
      assert (a + b)[1..] == a[1..] + b;
      assert Execs(a + b) == head + Execs(a[1..] + b);
      ExecsAppend(a[1..], b);
      assert Execs(a) == head + Execs(a[1..]);
    }
  }

  // ----------------------------------------------------- the build passes

  /** `prepare`: the dependency recipe, planned in the toolchain image `rust`. */
  function Prepare(rust: Container): File {
    File(Then(rust, [Workdir("/src"), Source("/src"), Exec(["cargo", "chef", "prepare"])]), "recipe.json")
  }

  function CookCommand(pass: seq<string>, target: Option<string>): seq<string> {
    ["cargo", "chef", "cook", "--recipe-path", "/src/recipe.json", "--release"] + pass + TargetArgs(target)
  }

  /** `cook`: the dependencies built for tests, for clippy and for release,
      as six more steps on the toolchain image, whose own steps come first. */
  function Cook(rust: Container, target: Option<string>): (c: Container)
    ensures c.platform == rust.platform && c.base == rust.base
    ensures |c.steps| == |rust.steps| + 6 && c.steps[..|rust.steps|] == rust.steps
  {
    Then(rust, [Workdir("/src"), Source("/src"), CopyFile("/src/recipe.json", Prepare(rust)),
                Exec(CookCommand(["--tests"], target)),
                Exec(CookCommand(["--clippy"], target)),
                Exec(CookCommand([], target))])
  }

  const NextestCommand := ["cargo", "nextest", "run", "--profile", "ci", "--release"]
  const ClippyCommand := ["cargo", "clippy", "--no-deps", "--release"]
  const BuildCommand := ["cargo", "build", "--release", "--bin", "controller"]

  /** `test`: the tests, then clippy with warnings denied, as two more steps
      on the cooked container. */
  function Test(rust: Container, target: Option<string>): (c: Container)
    ensures c.platform == rust.platform && c.base == rust.base
    ensures var cooked := Cook(rust, target).steps;
      |c.steps| == |cooked| + 2 && c.steps[..|cooked|] == cooked
  {
    Then(Cook(rust, target), [Exec(NextestCommand + TargetArgs(target)),
                              Exec(ClippyCommand + TargetArgs(target) + ["--", "--deny", "warnings"])])
  }

  /** The path `build` takes the binary from, `f"target/{target}/release/controller"`:
      the target's own directory, or "None" for a missing target. */
  function BuildPathAsWritten(target: Option<string>): (p: string)
    ensures target.Some? ==> p == "target/" + target.value + "/release/controller"
    ensures target.None? ==> p == "target/None/release/controller"
  {
    "target/" + Format(target) + "/release/controller"
  }

  /** `build`: the controller binary, taken from where cargo writes it
      (`BuildPath`; the path as written is `BuildPathAsWritten`). */
  function Build(rust: Container, target: Option<string>): (f: File)
    ensures f.path == CargoBinaryPath(TargetArgs(target))
    ensures f.container.platform == rust.platform
    ensures var cooked := Cook(rust, target).steps;
      |f.container.steps| == |cooked| + 1 && f.container.steps[..|cooked|] == cooked
  {
    File(Then(Cook(rust, target), [Exec(BuildCommand + TargetArgs(target))]), BuildPath(target))
  }

  /** Every cook pass builds the recipe for the release profile and ends
      with the target arguments. */
  lemma CookCommandShape(pass: seq<string>, target: Option<string>)
    ensures var e := CookCommand(pass, target);
      && e[..6] == ["cargo", "chef", "cook", "--recipe-path", "/src/recipe.json", "--release"]
      && e[|e| - |TargetArgs(target)|..] == TargetArgs(target)
  {
    var e := CookCommand(pass, target);
    assert e == ["cargo", "chef", "cook", "--recipe-path", "/src/recipe.json", "--release"] + (pass + TargetArgs(target));
  }

  /** `cook` runs three `chef cook` passes, `--tests`, `--clippy` and plain,
      after whatever the toolchain image ran. */
  lemma CookPasses(rust: Container, target: Option<string>)
    ensures Execs(Cook(rust, target).steps)
         == Execs(rust.steps) + [CookCommand(["--tests"], target), CookCommand(["--clippy"], target), CookCommand([], target)]
  {
    var steps := [Workdir("/src"), Source("/src"), CopyFile("/src/recipe.json", Prepare(rust)),
                  Exec(CookCommand(["--tests"], target)),
                  Exec(CookCommand(["--clippy"], target)),
                  Exec(CookCommand([], target))];
    assert Cook(rust, target).steps == rust.steps + steps;
    ExecsAppend(rust.steps, steps);
    CookStepsRunPasses(Prepare(rust), target);
  }

  /** The six steps `cook` adds run exactly the three passes. */
  lemma CookStepsRunPasses(recipe: File, target: Option<string>)
    ensures Execs([Workdir("/src"), Source("/src"), CopyFile("/src/recipe.json", recipe),
                   Exec(CookCommand(["--tests"], target)),
                   Exec(CookCommand(["--clippy"], target)),
                   Exec(CookCommand([], target))])
         == [CookCommand(["--tests"], target), CookCommand(["--clippy"], target), CookCommand([], target)]
  {
    var steps := [Workdir("/src"), Source("/src"), CopyFile("/src/recipe.json", recipe),
                  Exec(CookCommand(["--tests"], target)),
                  Exec(CookCommand(["--clippy"], target)),
                  Exec(CookCommand([], target))];
    assert Execs(steps[5..]) == [CookCommand([], target)] by { assert steps[5..][1..] == []; }
    assert Execs(steps[4..]) == [CookCommand(["--clippy"], target)] + Execs(steps[5..]);
    assert Execs(steps[3..]) == [CookCommand(["--tests"], target)] + Execs(steps[4..]);
    assert Execs(steps[2..]) == Execs(steps[3..]);
    assert Execs(steps[1..]) == Execs(steps[2..]);
  }

  /** `test` runs the tests before clippy, both after the three cook passes. */
  lemma TestRunsTestsBeforeClippy(rust: Container, target: Option<string>)
    ensures var e := Execs(Test(rust, target).steps);
      var n := |Execs(rust.steps)|;
      && |e| == n + 5
      && e[n + 3] == NextestCommand + TargetArgs(target)
      && e[n + 4] == ClippyCommand + TargetArgs(target) + ["--", "--deny", "warnings"]
  {
    var tail := [Exec(NextestCommand + TargetArgs(target)),
                 Exec(ClippyCommand + TargetArgs(target) + ["--", "--deny", "warnings"])];
    CookPasses(rust, target);
    ExecsAppend(Cook(rust, target).steps, tail);
    assert tail[1..][1..] == [];
  }

  /** `build` compiles the controller after the cook passes, with the target
      arguments last. */
  lemma BuildCompilesController(rust: Container, target: Option<string>)
    ensures var e := Execs(Build(rust, target).container.steps);
      e == Execs(Cook(rust, target).steps) + [BuildCommand + TargetArgs(target)]
  {
    ExecsAppend(Cook(rust, target).steps, [Exec(BuildCommand + TargetArgs(target))]);
  }

  // ------------------------------------------------ the build path, two ways

  /** Where `cargo build --release` writes the controller: under the target
      triple's directory with `--target`, directly under `target/` without. */
  function CargoBinaryPath(args: seq<string>): string {
    if |args| == 2 && args[0] == "--target" then "target/" + args[1] + "/release/controller"
    else "target/release/controller"
  }

  /** As written, the path agrees with cargo's only for a real target: without
      one (`build` called without a target, or `docker` without a platform)
      the binary is looked for under "target/None/", and for "" under
      "target//". */
  lemma BuildPathAsWrittenMissesUntargetedBuild(target: Option<string>)
    ensures BuildPathAsWritten(target) == CargoBinaryPath(TargetArgs(target)) <==> Truthy(target)
    ensures BuildPathAsWritten(None) == "target/None/release/controller"
  {
    if !Truthy(target) {
      assert |BuildPathAsWritten(target)| != |CargoBinaryPath(TargetArgs(target))|;
    }
  }

  /** The path as intended: cargo's own layout. */
  function BuildPath(target: Option<string>): (p: string)
    ensures Truthy(target) ==> p == BuildPathAsWritten(target)
    ensures p == CargoBinaryPath(TargetArgs(target))
  {
    if Truthy(target) then "target/" + target.value + "/release/controller" else "target/release/controller"
  }

  /** Why `docker` gives no image: the platform has no Rust target. */
  datatype DockerError = UnmappedPlatform(platform: string)

  /** `docker`: the binary, built for the platform's target, as the entry
      point of a static base image for that platform. A platform missing
      from `PLATFORM_TARGET` fails: as written the build then looks for the
      binary under "target/None/", where cargo never writes it. The
      container is lazy, so that happens when it is evaluated (published or
      exported); `UnmappedPlatform` is the model's name for that failure.
      Without a platform the image is the host's, built without a target. */
  function Docker(rust: Container, platform: Option<string>, version: string): (r: Result<Container, DockerError>)
    ensures r.Err? <==> platform.Some? && platform.value !in PlatformTarget
    ensures r.Err? ==> r.error == UnmappedPlatform(platform.value)
    ensures r.Ok? ==> r.value.platform == platform && r.value.base == StaticBase && |r.value.steps| == 3
    ensures r.Ok? ==> r.value.steps[1].CopyFile? && r.value.steps[1].file == Build(rust, TargetOf(platform))
  {
    if platform.Some? && platform.value !in PlatformTarget then Err(UnmappedPlatform(platform.value))
    else
      Ok(Container(platform, StaticBase, [Workdir("/bin"), CopyFile("/bin/yakup", Build(rust, TargetOf(platform))),
                                          Entrypoint(["/bin/yakup"])]))
  }

  /** The image of a published platform is built for its musl target and
      copied from that target's directory; the host image, without a
      platform, is built without a target and copied from "target/release/". */
  lemma DockerTargets(rust: Container, platform: Option<string>, version: string)
    ensures Docker(rust, platform, version).Ok? ==>
      var e := Execs(Docker(rust, platform, version).value.steps[1].file.container.steps);
      e != [] && e[|e| - 1] == BuildCommand + TargetArgs(TargetOf(platform))
    ensures platform.Some? && platform.value in PlatformTarget ==>
      && Docker(rust, platform, version).Ok?
      && TargetArgs(TargetOf(platform)) == ["--target", PlatformTarget[platform.value]]
      && Docker(rust, platform, version).value.steps[1].file.path
         == "target/" + PlatformTarget[platform.value] + "/release/controller"
    ensures platform.None? ==>
      && Docker(rust, platform, version).Ok?
      && TargetArgs(TargetOf(platform)) == []
      && Docker(rust, platform, version).value.steps[1].file.path == "target/release/controller"
  {
    BuildCompilesController(rust, TargetOf(platform));
  }

  // ------------------------------------------------------------ manifests

  /** A file of the `deploy` directory. */
  datatype Entry = Entry(path: string, src: string)

  /** Jinja2 rendering of a template source with `image` and `version`. */
  type Render = (string, string, string) -> string

  /** A file's contents: rendered when its name ends in ".j2", verbatim otherwise. */
  function Contents(e: Entry, image: string, version: string, render: Render): (c: string)
    ensures EndsWith(e.path, ".j2") ==> c == render(e.src, image, version)
    ensures !EndsWith(e.path, ".j2") ==> c == e.src
  {
    if !EndsWith(e.path, ".j2") then e.src else render(e.src, image, version)
  }

  /** A YAML document: the contents, with a "---" line in front unless they
      already start with "---". */
  function Document(contents: string): (d: string)
    ensures StartsWith(d, "---")
    ensures StartsWith(contents, "---") ==> d == contents
    ensures !StartsWith(contents, "---") ==> d == "---\n" + contents
  {
    if StartsWith(contents, "---") then contents
    else
      assert ("---\n" + contents)[..3] == "---";
      "---\n" + contents
  }

  /** Marking a document twice adds nothing. */
  lemma DocumentIsIdempotent(contents: string)
    ensures Document(Document(contents)) == Document(contents)
  {
  }

  /** `assemble_manifests`: one document per entry, in the order of the
      entries, joined by newlines. */
  method AssembleManifests(entries: seq<Entry>, image: string, version: string, render: Render)
    returns (deploy: string, documents: seq<string>)
    ensures |documents| == |entries|
    ensures forall i :: 0 <= i < |entries| ==> documents[i] == Document(Contents(entries[i], image, version, render))
    ensures deploy == Join(documents, "\n")
    ensures entries != [] ==> StartsWith(deploy, "---") && EndsWith(deploy, documents[|documents| - 1])
  {
    documents := CollectDocuments(entries, image, version, render);
    deploy := Join(documents, "\n");
    if entries != [] {
      forall d | d in documents
        ensures StartsWith(d, "---")
      {
        var j :| 0 <= j < |documents| && documents[j] == d;
      }
      ManifestEnds(documents);
    }
  }

  /** The loop of `assemble_manifests`: each entry's contents, rendered when
      it is a template, as a document with its "---" marker. */
  method CollectDocuments(entries: seq<Entry>, image: string, version: string, render: Render)
    returns (documents: seq<string>)
    ensures |documents| == |entries|
    ensures forall i :: 0 <= i < |entries| ==> documents[i] == Document(Contents(entries[i], image, version, render))
  {
    documents := [];
    var i := 0;
    while i < |entries|
      invariant 0 <= i <= |entries|
      invariant |documents| == i
      invariant forall j :: 0 <= j < i ==> documents[j] == Document(Contents(entries[j], image, version, render))
    {
      var contents;
      if !EndsWith(entries[i].path, ".j2") {
        contents := entries[i].src;
      } else {
        contents := render(entries[i].src, image, version);
      }
      assert contents == Contents(entries[i], image, version, render);
      if StartsWith(contents, "---") {
        documents := documents + [contents];
      } else {
        documents := documents + ["---\n" + contents];
      }
      i := i + 1;
    }
  }

  /** Documents that each start with a marker join to a file that starts
      with one and ends with the last document, with no newline after it. */
  lemma {:induction false} ManifestEnds(documents: seq<string>)
    requires documents != []
    requires forall d :: d in documents ==> StartsWith(d, "---")
    ensures StartsWith(Join(documents, "\n"), "---")
    ensures EndsWith(Join(documents, "\n"), documents[|documents| - 1])
  {
    JoinStarts(documents, "\n");
    JoinEnds(documents, "\n");
    var joined := Join(documents, "\n");
    assert StartsWith(documents[0], "---");
    assert joined[..3] == joined[..|documents[0]|][..3];
  }

  // -------------------------------------------------------------- publish

  /** A multi-platform image published under one address. */
  datatype PublishRequest = PublishRequest(address: string, variants: seq<Container>)

  /** The amd64 and arm64 images, in that order: the platforms `publish`
      builds, both of which `docker` maps to a target. */
  function Variants(rust: Container, version: string): (v: seq<Container>)
    ensures |v| == |Platforms| == 2
    ensures forall m :: 0 <= m < |Platforms| ==> Docker(rust, Some(Platforms[m]), version) == Ok(v[m])
  {
    [Docker(rust, Some(Platforms[0]), version).value, Docker(rust, Some(Platforms[1]), version).value]
  }

  /** The inner loop of `publish`: one `docker` call per platform, in order.
      Gives the images and the platform of each call made. */
  method BuildVariants(rust: Container, version: string) returns (variants: seq<Container>, calls: seq<string>)
    ensures variants == Variants(rust, version)
    ensures calls == Platforms
  {
    variants := [];
    calls := [];
    var k := 0;
    while k < |Platforms|
      invariant 0 <= k <= |Platforms|
      invariant variants == Variants(rust, version)[..k]
      invariant calls == Platforms[..k]
    {
      var built := Docker(rust, Some(Platforms[k]), version);
      variants := variants + [built.value];
      calls := calls + [Platforms[k]];
      k := k + 1;
    }
  }

  /** `publish`: "latest" and then the version, each published with a freshly
      built amd64 and arm64 variant, in that order. Gives the publish
      requests in tag order and the platform of each `docker` call made. */
  method Publish(rust: Container, image: string, version: string)
    returns (requests: seq<PublishRequest>, dockerCalls: seq<string>)
    ensures |requests| == 2
    ensures requests[0].address == image + ":latest" && requests[1].address == image + ":" + version
    ensures forall r :: r in requests ==> r.variants == Variants(rust, version)
    ensures dockerCalls == ["linux/amd64", "linux/arm64", "linux/amd64", "linux/arm64"]
  {
    var tags := ["latest", version];
    requests := [];
    dockerCalls := [];
    var i := 0;
    while i < |tags|
      invariant 0 <= i <= |tags|
      invariant |requests| == i
      invariant forall j :: 0 <= j < i ==> requests[j] == PublishRequest(image + ":" + tags[j], Variants(rust, version))
      invariant dockerCalls == if i == 0 then [] else if i == 1 then Platforms else Platforms + Platforms
    {
      var variants, calls := BuildVariants(rust, version);
      dockerCalls := dockerCalls + calls;
      requests := requests + [PublishRequest(image + ":" + tags[i], variants)];
      i := i + 1;
    }
  }
}
