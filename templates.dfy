/** The Fastfile that `init` writes, and where a Fastfile is looked for. */
module Templates {
  import opened Text

  const Placeholder := "{{SCHEME}}"

  /** The step every lane ends with: close the build step, upload, close the lane. */
  const UploadStep :=
    "\")\n"
    + "    upload_to_testflight(\n"
    + "      api_key_path: "
    + "ENV[\"APP_STORE_CONNECT_"
    + "API_KEY_KEY_FILEPATH\"],\n"
    + "      skip_waiting_for_"
    + "build_processing: true\n"
    + "    )\n"
    + "  end\n"

  /** The build step up to the scheme name. */
  const BuildStep := "    build_app(scheme: \""

  /** The line that opens the lane `name`. */
  function LaneHeader(name: string): string {
    "  lane :" + name + " do\n"
  }

  const BetaLane := LaneHeader("beta")
  const BetaPatchLane := LaneHeader("beta_patch")
  const BetaMinorLane := LaneHeader("beta_minor")

  const Preamble := "default_platform(:ios)\n\n" + "platform :ios do\n"
  const IncrementBuild := "    increment_build_number"
  const ResetBuild := IncrementBuild + "(build_number: 1)\n"
  const BumpVersion := "    increment_version_number"

  /** The body of each lane up to its placeholder. */
  const BetaBody := IncrementBuild + "\n" + BuildStep
  const PatchBody := BumpVersion + "(bump_type: \"patch\")\n" + ResetBuild + BuildStep
  const MinorBody := BumpVersion + "(bump_type: \"minor\")\n" + ResetBuild + BuildStep

  /** The template text before, between and after its three placeholders. */
  const Part0 := Preamble + BetaLane + BetaBody
  const Part1 := UploadStep + "\n" + BetaPatchLane + PatchBody
  const Part2 := UploadStep + "\n" + BetaMinorLane + MinorBody
  const Part3 := UploadStep + "end\n"

  /** `FASTFILE_TEMPLATE`: three lanes, `beta`, `beta_patch` and `beta_minor`, each
      building the scheme named at its placeholder and uploading to TestFlight. */
  const FastfileTemplate := Part0 + Placeholder + Part1 + Placeholder + Part2 + Placeholder + Part3

  /** `generate_fastfile`: the template with every placeholder replaced by the scheme. */
  function GenerateFastfile(scheme: string): string {
    ReplaceAll(FastfileTemplate, Placeholder, scheme)
  }

  // No piece of the template text holds a '{'; the literals are checked a few at a time.

  lemma UploadStepHead()
    ensures '{' !in "\")\n" && '{' !in "    upload_to_testflight(\n" && '{' !in "      api_key_path: "
  {
  }

  lemma UploadStepMiddle()
    ensures '{' !in "ENV[\"APP_STORE_CONNECT_" && '{' !in "API_KEY_KEY_FILEPATH\"],\n"
  {
  }

  lemma UploadStepTail()
    ensures '{' !in "      skip_waiting_for_" && '{' !in "build_processing: true\n"
    ensures '{' !in "    )\n" && '{' !in "  end\n"
  {
  }

  lemma UploadStepShape()
    ensures '{' !in UploadStep && UploadStep[0] == '"'
  {
    UploadStepHead();
    UploadStepMiddle();
    UploadStepTail();
  }

  lemma LanesShape()
    ensures '{' !in BetaLane && '{' !in BetaPatchLane && '{' !in BetaMinorLane
    ensures '{' !in "\n" && '{' !in "end\n"
  {
  }

  lemma StepsShape()
    ensures '{' !in BuildStep && BuildStep[|BuildStep| - 1] == '"'
    ensures '{' !in IncrementBuild && '{' !in ResetBuild && '{' !in BumpVersion
  {
    assert '{' !in "(build_number: 1)\n";
  }

  lemma BodiesShape()
    ensures '{' !in Preamble && '{' !in BetaBody && '{' !in PatchBody && '{' !in MinorBody
    ensures BetaBody[|BetaBody| - 1] == '"' && PatchBody[|PatchBody| - 1] == '"' && MinorBody[|MinorBody| - 1] == '"'
  {
    StepsShape();
    assert '{' !in "default_platform(:ios)\n\n" && '{' !in "platform :ios do\n";
    assert '{' !in "(bump_type: \"patch\")\n" && '{' !in "(bump_type: \"minor\")\n";
  }

  /** The shape the template has: four pieces of text free of '{', each placeholder
      followed by a '"'. */
  predicate Framed(p0: string, p1: string, p2: string, p3: string) {
    && '{' !in p0 && '{' !in p1 && '{' !in p2 && '{' !in p3
    && p1 != [] && p2 != [] && p3 != []
    && p1[0] == '"' && p2[0] == '"' && p3[0] == '"'
  }

  /** The text around the template's placeholders has that shape, and each
      placeholder is also preceded by a '"'. */
  lemma PartsShape()
    ensures Framed(Part0, Part1, Part2, Part3)
    ensures Part0[|Part0| - 1] == '"' && Part1[|Part1| - 1] == '"' && Part2[|Part2| - 1] == '"'
  {
    UploadStepShape();
    LanesShape();
    BodiesShape();
  }

  lemma Reassociate(a: string, b: string, c: string, d: string, e: string, f: string, g: string)
    ensures a + b + c + d + e + f + g == a + (b + (c + (d + (e + (f + g)))))
  {
  }

  /** `replace` passes over text free of '{' and substitutes the placeholder after it. */
  lemma ReplaceStep(q: string, rest: string, s: string)
    requires '{' !in q
    ensures ReplaceAll(q + (Placeholder + rest), Placeholder, s) == q + (s + ReplaceAll(rest, Placeholder, s))
  {
    var p := Placeholder;
    assert p[0] == '{';
    ReplaceSkips(q, p + rest, p, s);
    ReplaceHead(rest, p, s);
  }

  /** `replace` on a text of that shape substitutes exactly the three placeholders. */
  lemma ReplaceFramed(p0: string, p1: string, p2: string, p3: string, s: string)
    requires Framed(p0, p1, p2, p3)
    ensures ReplaceAll(p0 + Placeholder + p1 + Placeholder + p2 + Placeholder + p3, Placeholder, s)
         == p0 + s + p1 + s + p2 + s + p3
  {
    var p := Placeholder;
    var r2 := p2 + (p + p3);
    var r1 := p1 + (p + r2);
    ReplaceNothing(p3, p, s);
    ReplaceStep(p2, p3, s);
    var t2 := ReplaceAll(r2, p, s);
    assert t2 == p2 + (s + p3);
    ReplaceStep(p1, r2, s);
    var t1 := ReplaceAll(r1, p, s);
    assert t1 == p1 + (s + t2);
    ReplaceStep(p0, r1, s);
    Reassociate(p0, p, p1, p, p2, p, p3);
    Reassociate(p0, s, p1, s, p2, s, p3);
  }

  /** The generated Fastfile is the template with the scheme standing where each of
      the three placeholders stood, and nothing else changed. */
  lemma GenerateShape(scheme: string)
    ensures GenerateFastfile(scheme) == Part0 + scheme + Part1 + scheme + Part2 + scheme + Part3
  {
    PartsShape();
    ReplaceFramed(Part0, Part1, Part2, Part3, scheme);
  }

  /** The template has exactly three placeholders: each one replaced adds
      `|scheme| - |"{{SCHEME}}"|` characters. */
  lemma GenerateLength(scheme: string)
    ensures |GenerateFastfile(scheme)| == |FastfileTemplate| + 3 * (|scheme| - |Placeholder|)
  {
    GenerateShape(scheme);
  }

  /** Filling in the placeholder itself gives the template back. */
  lemma GenerateIdentity()
    ensures GenerateFastfile(Placeholder) == FastfileTemplate
  {
    GenerateShape(Placeholder);
  }

  /** The characters an occurrence covers are those of the pattern. */
  lemma OccursChars(w: string, sub: string, i: nat)
    ensures OccursAt(w, sub, i) ==> forall k | i <= k < i + |sub| :: w[k] == sub[k - i]
  {
    if OccursAt(w, sub, i) {
      forall k | i <= k < i + |sub|
        ensures w[k] == sub[k - i]
      {
        assert w[i..i + |sub|][k - i] == w[k];
      }
    }
  }

  /** An occurrence of the placeholder cannot start in text free of '{'. */
  lemma NotInPart(w: string, pre: string, part: string, i: nat)
    requires '{' !in part && StartsWith(w, pre + part)
    requires |pre| <= i < |pre| + |part|
    ensures !OccursAt(w, Placeholder, i)
  {
    assert w[i] == (pre + part)[i] == part[i - |pre|];
    assert Placeholder[0] == '{';
    OccursChars(w, Placeholder, i);
  }

  /** An occurrence that starts inside the scheme and is followed by a '"' lies inside the scheme. */
  lemma InScheme(w: string, pre: string, scheme: string, i: nat)
    requires StartsWith(w, pre + scheme) && |pre + scheme| < |w| && w[|pre + scheme|] == '"'
    requires |pre| <= i < |pre| + |scheme|
    requires OccursAt(w, Placeholder, i)
    ensures OccursAt(scheme, Placeholder, i - |pre|)
  {
    var n, m := |Placeholder|, |pre + scheme|;
    assert '"' !in Placeholder;
    OccursChars(w, Placeholder, i);
    assert i + n <= m;
    assert forall j | i <= j < i + n :: w[j] == w[..m][j] == (pre + scheme)[j];
    assert w[i..i + n] == (pre + scheme)[i..i + n];
    assert (pre + scheme)[i..i + n] == scheme[i - |pre|..i - |pre| + n];
  }

  /** In a text of the template's shape with `s` filled in, every placeholder lies inside a copy of `s`. */
  lemma {:induction false} NoPlaceholderFramed(p0: string, p1: string, p2: string, p3: string, s: string)
    requires Framed(p0, p1, p2, p3)
    requires !Contains(s, Placeholder)
    ensures !Contains(p0 + s + p1 + s + p2 + s + p3, Placeholder)
  {
    var w := p0 + s + p1 + s + p2 + s + p3;
    var a := p0;
    var b := a + s;
    var c := b + p1;
    var d := c + s;
    var e := d + p2;
    var f := e + s;
    assert w == f + p3;
    assert StartsWith(w, b) && StartsWith(w, c) && StartsWith(w, d) by {
      assert w == d + (p2 + s + p3);
      assert w[..|d|] == d && w[..|c|] == c && w[..|b|] == b;
    }
    assert StartsWith(w, e) && StartsWith(w, f) by {
      assert w[..|e|] == e && w[..|f|] == f;
    }
    forall i | 0 <= i <= |w|
      ensures !OccursAt(w, Placeholder, i)
    {
      if i < |a| {
        NotInPart(w, [], p0, i);
      } else if i < |b| {
        assert w[|b|] == p1[0];
        if OccursAt(w, Placeholder, i) { InScheme(w, a, s, i); }
      } else if i < |c| {
        NotInPart(w, b, p1, i);
      } else if i < |d| {
        assert w[|d|] == p2[0];
        if OccursAt(w, Placeholder, i) { InScheme(w, c, s, i); }
      } else if i < |e| {
        NotInPart(w, d, p2, i);
      } else if i < |f| {
        assert w[|f|] == p3[0];
        if OccursAt(w, Placeholder, i) { InScheme(w, e, s, i); }
      } else if i < |w| {
        NotInPart(w, f, p3, i);
      }
    }
  }

  /** Replacing the placeholder by a scheme that does not contain it leaves none behind. */
  lemma NoPlaceholderLeft(scheme: string)
    requires !Contains(scheme, Placeholder)
    ensures !Contains(GenerateFastfile(scheme), Placeholder)
  {
    GenerateShape(scheme);
    PartsShape();
    NoPlaceholderFramed(Part0, Part1, Part2, Part3, scheme);
  }

  /** The generated Fastfile defines the lanes `beta`, `beta_patch` and `beta_minor`. */
  lemma DefinesLanes(scheme: string)
    ensures Contains(GenerateFastfile(scheme), BetaLane)
    ensures Contains(GenerateFastfile(scheme), BetaPatchLane)
    ensures Contains(GenerateFastfile(scheme), BetaMinorLane)
  {
    GenerateShape(scheme);
    var s := scheme;
    ContainsMiddle(Preamble, BetaLane, BetaBody);
    ContainsMiddle(UploadStep + "\n", BetaPatchLane, PatchBody);
    ContainsMiddle(UploadStep + "\n", BetaMinorLane, MinorBody);
    ContainsFramed(Part0, Part1, Part2, Part3, s, BetaLane);
    ContainsFramed(Part0, Part1, Part2, Part3, s, BetaPatchLane);
    ContainsFramed(Part0, Part1, Part2, Part3, s, BetaMinorLane);
  }

  /** Text in one of the pieces is in the filled-in template. */
  lemma ContainsFramed(p0: string, p1: string, p2: string, p3: string, s: string, x: string)
    requires Contains(p0, x) || Contains(p1, x) || Contains(p2, x)
    ensures Contains(p0 + s + p1 + s + p2 + s + p3, x)
  {
    if Contains(p0, x) {
      ContainsLeft(p0, s + p1 + s + p2 + s + p3, x);
      Reassociate(p0, s, p1, s, p2, s, p3);
      assert p0 + (s + p1 + s + p2 + s + p3) == p0 + (s + (p1 + (s + (p2 + (s + p3)))));
    } else if Contains(p1, x) {
      var u := p0 + s + p1;
      ContainsRight(p0 + s, p1, x);
      ContainsLeft(u, s + (p2 + (s + p3)), x);
      assert u + (s + (p2 + (s + p3))) == p0 + s + p1 + s + p2 + s + p3;
    } else {
      ContainsRight(p0 + s + p1 + s, p2, x);
      ContainsLeft(p0 + s + p1 + s + p2, s + p3, x);
      assert p0 + s + p1 + s + p2 + (s + p3) == p0 + s + p1 + s + p2 + s + p3;
    }
  }

  /** `LAUNCHPAD_TOML_EXAMPLE`, the example project configuration written for the team. */
  const LaunchpadTomlExample :=
    "# Launchpad configuration file\n"
    + "# Copy this to .launchpad.toml and customize for your project\n"
    + "\n"
    + "[project]\n"
    + "ios_path = \"ios\"           # Path to iOS project directory\n"
    + "scheme = \"YourAppScheme\"   # Xcode scheme name\n"
    + "bundle_id = \"com.example.app\"\n"
    + "\n"
    + "[deploy]\n"
    + "git_tag = true             # Create git tags after deploy\n"
    + "push_tags = true           # Push tags to remote\n"
    + "clean_artifacts = true     # Clean build artifacts after deploy\n"

  /** Where `init` and `doctor` look for a Fastfile, in this order. */
  function FastfileCandidates(iosPath: string): (c: seq<string>)
    ensures |c| == 4 && c[0] == iosPath + "/fastlane/Fastfile"
  {
    [iosPath + "/fastlane/Fastfile", iosPath + "/Fastfile", "fastlane/Fastfile", "Fastfile"]
  }
}
