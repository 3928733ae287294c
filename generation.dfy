/**
 * The generation client's pure decisions: the checks applied to the HTTP
 * response, and the plan of files written for the returned artifacts.
 */
module Generation {
  import opened Wrappers
  import opened Decimal

  /** A parsed JSON value. */
  datatype Json =
    | JNull
    | JBool(b: bool)
    | JNumber(n: int)
    | JString(s: string)
    | JArray(items: seq<Json>)
    | JObject(fields: map<string, Json>)

  /**
   * What the HTTP exchange returned: the status, its text, and the body as
   * parsed by `response.json()` (`None` when the body is not valid JSON).
   */
  datatype HttpResponse = HttpResponse(status: int, statusText: string, body: Option<Json>)

  /** Why a generation attempt was abandoned. */
  datatype GenerationError =
    | RequestFailed(statusText: string)   // `Non-200 response: ...`
    | InvalidJson                         // `response.json()` rejected
    | MalformedResponse                   // `Unexpected responseJSON structure`
    | BadArtifact(index: nat)             // an artifact without a string `base64`

  /** `response.ok`: a status in the 200 to 299 range. */
  predicate IsOk(r: HttpResponse)
  {
    200 <= r.status <= 299
  }

  /** The body holds an `artifacts` field whose value is an array. */
  predicate HasArtifacts(body: Json)
  {
    body.JObject? && "artifacts" in body.fields && body.fields["artifacts"].JArray?
  }

  /**
   * The checks before any artifact is handled: a status outside 200..299 is
   * rejected before the body is looked at; then the body must parse, and its
   * `artifacts` field must exist and be an array.
   */
  function CheckResponse(r: HttpResponse): (result: Result<seq<Json>, GenerationError>)
    ensures !IsOk(r) ==> result == Err(RequestFailed(r.statusText))
    ensures IsOk(r) && r.body.None? ==> result == Err(InvalidJson)
    ensures result.Ok? <==> IsOk(r) && r.body.Some? && HasArtifacts(r.body.value)
    ensures result.Ok? ==> JArray(result.value) == r.body.value.fields["artifacts"]
    ensures result.Err? && IsOk(r) && r.body.Some? ==> result.error == MalformedResponse
  {
    if !IsOk(r) then Err(RequestFailed(r.statusText))
    else match r.body
      case None => Err(InvalidJson)
      case Some(body) =>
        if HasArtifacts(body) then Ok(body.fields["artifacts"].items) else Err(MalformedResponse)
  }

  /** A failed request is rejected whatever its body holds. */
  lemma FailedStatusIgnoresBody(r: HttpResponse, other: Option<Json>)
    requires !IsOk(r)
    ensures CheckResponse(r) == CheckResponse(r.(body := other))
  {
  }

  /** `artifact.base64`, when it is a string (only then can `.replace` run on it). */
  function Payload(artifact: Json): (p: Option<string>)
    ensures p.Some? <==> artifact.JObject? && "base64" in artifact.fields && artifact.fields["base64"].JString?
    ensures p.Some? ==> artifact.fields["base64"] == JString(p.value)
  {
    if artifact.JObject? && "base64" in artifact.fields && artifact.fields["base64"].JString?
    then Some(artifact.fields["base64"].s)
    else None
  }

  const DataUriPrefix := "data:image/jpeg;base64,"

  /** `imageData.replace(/^data:image\/jpeg;base64,/, "")`: the prefix is dropped once, at the start only. */
  function StripDataUriPrefix(s: string): (r: string)
    ensures |r| == if DataUriPrefix <= s then |s| - |DataUriPrefix| else |s|
    ensures r == s[|s| - |r|..]
  {
    if DataUriPrefix <= s then s[|DataUriPrefix|..] else s
  }

  /** Putting the prefix back in front of a stripped payload restores it. */
  lemma StripRestores(s: string)
    requires DataUriPrefix <= s
    ensures DataUriPrefix + StripDataUriPrefix(s) == s
  {
  }

  /** Only one copy of the prefix is removed; a second copy stays. */
  lemma StripOnlyOnce(t: string)
    ensures StripDataUriPrefix(DataUriPrefix + DataUriPrefix + t) == DataUriPrefix + t
  {
    var s := DataUriPrefix + DataUriPrefix + t;
    assert DataUriPrefix <= s by {
      assert s[..|DataUriPrefix|] == DataUriPrefix;
    }
    assert s[|DataUriPrefix|..] == DataUriPrefix + t;
  }

  /** `./out/artifact-${i}.jpg` */
  function ArtifactPath(i: nat): string
  {
    "./out/artifact-" + NatToString(i) + ".jpg"
  }

  /**
   * An artifact's file name is the directory and name prefix, the index in
   * decimal, and the extension.
   */
  lemma ArtifactPathShape(i: nat)
    ensures var p := ArtifactPath(i);
      && |p| > 19 && p[..15] == "./out/artifact-" && p[|p| - 4..] == ".jpg"
      && (forall k :: 15 <= k < |p| - 4 ==> IsDigit(p[k]))
      && ParseDigits(p[15..|p| - 4]) == i
  {
    var digits := NatToString(i);
    ParseNatToString(i);
    var p := ArtifactPath(i);
    assert p[15..|p| - 4] == digits;
  }

  /** Different artifacts go to different files. */
  lemma ArtifactPathInjective(i: nat, j: nat)
    requires ArtifactPath(i) == ArtifactPath(j)
    ensures i == j
  {
    var pre := "./out/artifact-";
    var a, b := NatToString(i), NatToString(j);
    assert |a| == |b|;
    assert a == ArtifactPath(i)[|pre|..|pre| + |a|];
    assert b == ArtifactPath(j)[|pre|..|pre| + |b|];
    NatToStringInjective(i, j);
  }

  /** One `fs.writeFile` call: the file and the base64 text written to it. */
  datatype FileWrite = FileWrite(path: string, base64Data: string)

  /**
   * The write issued for artifact `i` whose payload is `payload`: to the
   * artifact's own file, the payload without its data-URI prefix.
   */
  function WriteFor(i: nat, payload: string): (w: FileWrite)
    ensures w.path == ArtifactPath(i)
    ensures DataUriPrefix <= payload ==> DataUriPrefix + w.base64Data == payload
    ensures !(DataUriPrefix <= payload) ==> w.base64Data == payload
  {
    FileWrite(ArtifactPath(i), StripDataUriPrefix(payload))
  }

  /**
   * `artifacts.forEach((artifact, i) => ...)`: one write per artifact, in
   * order. An artifact without a string payload makes the callback throw, so
   * the writes already issued stand and the remaining artifacts are skipped;
   * `failedAt` names that artifact.
   */
  method PlanWrites(artifacts: seq<Json>) returns (plan: seq<FileWrite>, failedAt: Option<nat>)
    ensures failedAt.None? <==> forall i :: 0 <= i < |artifacts| ==> Payload(artifacts[i]).Some?
    ensures failedAt.None? ==> |plan| == |artifacts|
    ensures failedAt.Some? ==>
      failedAt.value < |artifacts| && Payload(artifacts[failedAt.value]).None? && |plan| == failedAt.value
    ensures forall i :: 0 <= i < |plan| ==>
      Payload(artifacts[i]).Some? && plan[i] == WriteFor(i, Payload(artifacts[i]).value)
    ensures forall i, j :: 0 <= i < j < |plan| ==> plan[i].path != plan[j].path
  {
    plan := [];
    failedAt := None;
    var i := 0;
    while i < |artifacts|
      invariant 0 <= i <= |artifacts| && |plan| == i
      invariant forall k :: 0 <= k < i ==>
        Payload(artifacts[k]).Some? && plan[k] == WriteFor(k, Payload(artifacts[k]).value)
      invariant forall k, m :: 0 <= k < m < i ==> plan[k].path != plan[m].path
    {
      var payload := Payload(artifacts[i]);
      if payload.None? {
        failedAt := Some(i);
        return;
      }
      var w := WriteFor(i, payload.value);
      forall k | 0 <= k < i
        ensures plan[k].path != w.path
      {
        if ArtifactPath(k) == ArtifactPath(i) {
          ArtifactPathInjective(k, i);
        }
      }
      plan := plan + [w];
      i := i + 1;
    }
  }

  /**
   * What handling response `r` amounts to: a rejected response issues no
   * write and reports its error; an accepted one issues one write per artifact,
   * in order, up to the first artifact without a string payload, which is
   * reported.
   */
  ghost predicate Handled(r: HttpResponse, plan: seq<FileWrite>, error: Option<GenerationError>)
  {
    match CheckResponse(r)
    case Err(e) => plan == [] && error == Some(e)
    case Ok(artifacts) =>
      && |plan| <= |artifacts|
      && (forall i :: 0 <= i < |plan| ==>
            Payload(artifacts[i]).Some? && plan[i] == WriteFor(i, Payload(artifacts[i]).value))
      && (error.None? <==> forall i :: 0 <= i < |artifacts| ==> Payload(artifacts[i]).Some?)
      && (error.None? ==> |plan| == |artifacts|)
      && (error.Some? ==> error.value == BadArtifact(|plan|) && Payload(artifacts[|plan|]).None?)
  }

  /**
   * The response handling of `fetchImageAndWriteToFile`: check the response,
   * then plan the writes. Any error stops the attempt (the `catch` handler
   * logs it); writes issued before it stand. No two writes share a file.
   */
  method HandleResponse(r: HttpResponse) returns (plan: seq<FileWrite>, error: Option<GenerationError>)
    ensures Handled(r, plan, error)
    ensures forall i, j :: 0 <= i < j < |plan| ==> plan[i].path != plan[j].path
  {
    match CheckResponse(r)
    case Err(e) =>
      plan, error := [], Some(e);
    case Ok(artifacts) =>
      var failedAt;
      plan, failedAt := PlanWrites(artifacts);
      error := if failedAt.Some? then Some(BadArtifact(failedAt.value)) else None;
  }

  /**
   * A response with one artifact whose payload carries the data-URI prefix is
   * accepted, and that artifact is written to `./out/artifact-0.jpg` without
   * the prefix.
   */
  lemma SingleArtifactExample()
    ensures var artifact := JObject(map["base64" := JString("data:image/jpeg;base64,QQ==")]);
      var r := HttpResponse(200, "OK", Some(JObject(map["artifacts" := JArray([artifact])])));
      && CheckResponse(r) == Ok([artifact])
      && Payload(artifact) == Some("data:image/jpeg;base64,QQ==")
      && WriteFor(0, "data:image/jpeg;base64,QQ==") == FileWrite("./out/artifact-0.jpg", "QQ==")
  {
    var payload := "data:image/jpeg;base64,QQ==";
    assert payload == DataUriPrefix + "QQ==";
    assert payload[..|DataUriPrefix|] == DataUriPrefix;
    assert NatToString(0) == "0";
  }
}
