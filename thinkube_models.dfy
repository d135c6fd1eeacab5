/**
 * The request-shaping parts of the notebook library that loads models from
 * MLflow and registers fine-tuned models with thinkube-control: name
 * mangling, the choice of the latest registered version, the quantization
 * gate, the description, headers and payload of the registration request,
 * the control-plane URL, the order in which an access token is looked for,
 * and the staging directory.
 *
 * The process environment is a map, the user's home directory and the text
 * of the token file are inputs, and so is the access token the Keycloak
 * endpoint answers with (None when that request fails). The HTTP calls,
 * the model loading, the quantization itself and the saving are steps the
 * model names, not work it does.
 */
module ThinkubeModels {

  import opened Wrappers
  import opened Strings
  import Paths

  /** The exception the modelled fragments raise, with its `str()`. */
  datatype ModelsError = ValueError(message: string)

  /** Python truthiness of an optional string: present and not empty. */
  predicate Truthy(s: Option<string>) {
    s.Some? && s.value != []
  }

  /** `os.environ.get(key)` */
  function Lookup(env: map<string, string>, key: string): Option<string> {
    if key in env then Some(env[key]) else None
  }

  /** `os.environ.get(key, default)` */
  function LookupOr(env: map<string, string>, key: string, default: string): string {
    if key in env then env[key] else default
  }

  // ---------------------------------------------------------------------
  // Loading from MLflow
  // ---------------------------------------------------------------------

  function Mangle(c: char): char {
    if c == '/' then '-' else c
  }

  /** `model_id.replace('/', '-')`: the name the model has in the registry. */
  function MlflowModelName(modelId: string): (name: string)
    ensures |name| == |modelId|
    ensures '/' !in name
    ensures forall i :: 0 <= i < |name| ==>
      (modelId[i] == '/' ==> name[i] == '-') && (modelId[i] != '/' ==> name[i] == modelId[i])
  {
    if modelId == [] then []
    else MlflowModelName(modelId[..|modelId| - 1]) + [Mangle(modelId[|modelId| - 1])]
  }

  /** An identifier without '/' is its own registry name. */
  lemma NameWithoutSlashUnchanged(modelId: string)
    requires '/' !in modelId
    ensures MlflowModelName(modelId) == modelId
  {
    var name := MlflowModelName(modelId);
    assert forall i :: 0 <= i < |name| ==> name[i] == modelId[i];
  }

  /** Mangling a registry name again changes nothing. */
  lemma MlflowModelNameIdempotent(modelId: string)
    ensures MlflowModelName(MlflowModelName(modelId)) == MlflowModelName(modelId)
  {
    NameWithoutSlashUnchanged(MlflowModelName(modelId));
  }

  /** Mangling works character by character, so it distributes over concatenation. */
  lemma {:induction false} MlflowModelNameConcat(front: string, back: string)
    ensures MlflowModelName(front + back) == MlflowModelName(front) + MlflowModelName(back)
    decreases |back|
  {
    if back == [] {
      assert front + back == front;
    } else {
      var init := back[..|back| - 1];
      assert (front + back)[..|front + back| - 1] == front + init;
      assert (front + back)[|front + back| - 1] == back[|back| - 1];
      MlflowModelNameConcat(front, init);
    }
  }

  /**
   * Two identifiers that differ only in a '/' against a '-' get the same
   * registry name: the mangling is not one-to-one.
   */
  lemma SlashAndDashCollide(owner: string, model: string)
    ensures MlflowModelName(owner + "/" + model) == MlflowModelName(owner + "-" + model)
  {
    MlflowModelNameConcat(owner + "/", model);
    MlflowModelNameConcat(owner, "/");
    MlflowModelNameConcat(owner + "-", model);
    MlflowModelNameConcat(owner, "-");
  }

  /** One entry of the registry's `model_versions` answer, `version` already converted with `int()`. */
  datatype ModelVersion = ModelVersion(version: int, runId: string)

  /** The index `max(versions, key=version)` picks: the first of the greatest versions. */
  function LatestIndex(versions: seq<ModelVersion>): (k: nat)
    requires versions != []
    ensures k < |versions|
    ensures forall i :: 0 <= i < |versions| ==> versions[i].version <= versions[k].version
    ensures forall i :: 0 <= i < k ==> versions[i].version < versions[k].version
  {
    if |versions| == 1 then 0
    else
      var k := LatestIndex(versions[..|versions| - 1]);
      if versions[|versions| - 1].version > versions[k].version then |versions| - 1 else k
  }

  const NotFoundPrefix := "Model '"
  const NotFoundSuffix := "' not found in MLflow registry. Please mirror the model first using thinkube-control."

  function NotFoundMessage(modelName: string): string {
    NotFoundPrefix + modelName + NotFoundSuffix
  }

  /**
   * The version `load_model_for_finetuning` loads: a ValueError when the registry
   * knows no version, otherwise one with the greatest version number.
   */
  function SelectLatestVersion(modelName: string, versions: seq<ModelVersion>): (r: Result<ModelVersion, ModelsError>)
    ensures r.Err? <==> versions == []
    ensures r.Err? ==> r.error == ValueError(NotFoundMessage(modelName))
    ensures r.Ok? ==> r.value in versions
    ensures r.Ok? ==> forall v :: v in versions ==> v.version <= r.value.version
  {
    if versions == [] then Err(ValueError(NotFoundMessage(modelName)))
    else Ok(versions[LatestIndex(versions)])
  }

  /** Among several entries with the greatest version, the first one listed is chosen. */
  lemma FirstGreatestChosen(modelName: string, versions: seq<ModelVersion>, k: nat)
    requires k < |versions|
    requires forall i :: 0 <= i < |versions| ==> versions[i].version <= versions[k].version
    requires forall i :: 0 <= i < k ==> versions[i].version < versions[k].version
    ensures SelectLatestVersion(modelName, versions) == Ok(versions[k])
  {
    var j := LatestIndex(versions);
    assert versions[j].version == versions[k].version;
  }

  // ---------------------------------------------------------------------
  // Registering a fine-tuned model
  // ---------------------------------------------------------------------

  /** `QuantizationFormat`, the three values `register_finetuned_model` accepts. */
  datatype QuantizationFormat = FP8 | NVFP4 | BF16 {
    /** The format as the `quantization` argument spells it. */
    function Name(): string {
      match this
      case FP8 => "FP8"
      case NVFP4 => "NVFP4"
      case BF16 => "BF16"
    }
  }

  const UnsupportedPrefix := "Unsupported quantization format: "
  const UnsupportedSuffix := ". Use 'FP8', 'NVFP4', or 'BF16'"

  /** The gate of lines 479-489: one of the three names, or a ValueError naming the argument. */
  function ParseQuantization(q: string): (r: Result<QuantizationFormat, ModelsError>)
    ensures r.Ok? ==> r.value.Name() == q
    ensures r.Err? <==> forall f: QuantizationFormat :: f.Name() != q
    ensures r.Err? ==> r.error == ValueError(UnsupportedPrefix + q + UnsupportedSuffix)
  {
    if q == "FP8" then Ok(FP8)
    else if q == "NVFP4" then Ok(NVFP4)
    else if q == "BF16" then Ok(BF16)
    else Err(ValueError(UnsupportedPrefix + q + UnsupportedSuffix))
  }

  /** Every format passes the gate under its own name. */
  lemma QuantizationRoundTrip(f: QuantizationFormat)
    ensures ParseQuantization(f.Name()) == Ok(f)
  {
  }

  const FineTunedFrom := "Fine-tuned from "

  /** `description or f"Fine-tuned from {base_model}"` */
  function DescriptionStem(description: Option<string>, baseModel: string): string {
    if Truthy(description) then description.value else FineTunedFrom + baseModel
  }

  /**
   * `full_description`: the given description, or one naming the base model,
   * followed by the format in parentheses unless the model stays in BF16.
   */
  function FullDescription(description: Option<string>, baseModel: string, f: QuantizationFormat): (d: string)
    ensures Truthy(description) ==> StartsWith(d, description.value)
    ensures !Truthy(description) ==> StartsWith(d, FineTunedFrom + baseModel)
    ensures f == BF16 ==> d == DescriptionStem(description, baseModel)
    ensures f != BF16 ==>
      |d| == |DescriptionStem(description, baseModel)| + |f.Name()| + 3
      && EndsWith(d, " (" + f.Name() + ")")
  {
    var stem := DescriptionStem(description, baseModel);
    var d := if f == BF16 then stem else stem + " (" + f.Name() + ")";
    assert d[..|stem|] == stem;
    d
  }

  /** An empty description counts as none. */
  lemma EmptyDescriptionFallsBack(baseModel: string, f: QuantizationFormat)
    ensures FullDescription(Some(""), baseModel, f) == FullDescription(None, baseModel, f)
  {
  }

  const ContentTypeHeader := "Content-Type"
  const AuthorizationHeader := "Authorization"
  const JsonMediaType := "application/json"
  const BearerPrefix := "Bearer "

  /** The `headers` of the registration request. */
  function RegistrationHeaders(token: Option<string>): (h: map<string, string>)
    ensures ContentTypeHeader in h && h[ContentTypeHeader] == JsonMediaType
    ensures AuthorizationHeader in h <==> Truthy(token)
    ensures AuthorizationHeader in h ==> h[AuthorizationHeader] == BearerPrefix + token.value
    ensures h.Keys <= {ContentTypeHeader, AuthorizationHeader}
  {
    var json := map[ContentTypeHeader := JsonMediaType];
    if Truthy(token) then json[AuthorizationHeader := BearerPrefix + token.value] else json
  }

  /** Lines 513-515: the JSON content type, then the bearer token when there is one. */
  method BuildRegistrationHeaders(token: Option<string>) returns (headers: map<string, string>)
    ensures headers == RegistrationHeaders(token)
  {
    headers := map[ContentTypeHeader := JsonMediaType];
    if token.Some? && token.value != [] {
      headers := headers[AuthorizationHeader := BearerPrefix + token.value];
    }
  }

  /** The JSON body of the registration request. */
  datatype Payload = Payload(
    name: string,
    sourcePath: string,
    baseModel: string,
    task: string,
    serverType: string,
    description: string,
    quantization: string)

  // ---------------------------------------------------------------------
  // Where the control plane is and how to authenticate
  // ---------------------------------------------------------------------

  const ControlUrlVar := "THINKUBE_CONTROL_URL"
  const InClusterUrl := "http://backend.thinkube-control.svc.cluster.local:8000"

  /**
   * `get_thinkube_control_url`: a set, non-empty THINKUBE_CONTROL_URL with
   * its trailing slashes removed, else the in-cluster service address.
   */
  function GetThinkubeControlUrl(env: map<string, string>): (url: string)
    ensures Truthy(Lookup(env, ControlUrlVar)) ==>
      var u := env[ControlUrlVar];
      |url| <= |u| && url == u[..|url|]
      && (forall i :: |url| <= i < |u| ==> u[i] == '/')
      && (url == [] || url[|url| - 1] != '/')
    ensures !Truthy(Lookup(env, ControlUrlVar)) ==> url == InClusterUrl
  {
    var configured := Lookup(env, ControlUrlVar);
    if Truthy(configured) then TrimEndChar(configured.value, '/') else InClusterUrl
  }

  /** However many slashes end the configured URL, the address is the same. */
  lemma TrailingSlashesIgnored(env: map<string, string>, base: string, slashes: string)
    requires base != [] && base[|base| - 1] != '/'
    requires forall i :: 0 <= i < |slashes| ==> slashes[i] == '/'
    ensures GetThinkubeControlUrl(env[ControlUrlVar := base + slashes]) == base
  {
    TrimEndCharOfRun(base, slashes, '/');
  }

  const RegisterRoute := "/api/v1/models/register"

  /** The endpoint the registration is posted to. */
  function RegisterUrl(apiUrl: string): string {
    apiUrl + RegisterRoute
  }

  const ControlTokenVar := "THINKUBE_CONTROL_TOKEN"
  const KeycloakUrlVar := "KEYCLOAK_URL"
  const KeycloakClientIdVar := "KEYCLOAK_CLIENT_ID"
  const KeycloakSecretVar := "KEYCLOAK_CLIENT_SECRET"
  const KeycloakRealmVar := "KEYCLOAK_REALM"
  const DefaultClientId := "thinkube-control"
  const DefaultRealm := "thinkube"
  const RealmsRoute := "/realms/"
  const TokenRoute := "/protocol/openid-connect/token"

  /** The client-credentials request sent to Keycloak. */
  datatype KeycloakRequest = KeycloakRequest(tokenUrl: string, clientId: string, clientSecret: string)

  /** The Keycloak request `get_auth_token` would send, when it is configured to send one. */
  function KeycloakRequestFor(env: map<string, string>): (r: Option<KeycloakRequest>)
    ensures r.Some? <==> Truthy(Lookup(env, KeycloakUrlVar)) && Truthy(Lookup(env, KeycloakSecretVar))
    ensures r.Some? ==>
      && r.value.tokenUrl == env[KeycloakUrlVar] + RealmsRoute + LookupOr(env, KeycloakRealmVar, DefaultRealm) + TokenRoute
      && r.value.clientId == LookupOr(env, KeycloakClientIdVar, DefaultClientId)
      && r.value.clientSecret == env[KeycloakSecretVar]
  {
    var url := Lookup(env, KeycloakUrlVar);
    var secret := Lookup(env, KeycloakSecretVar);
    if Truthy(url) && Truthy(secret) then
      var tokenUrl := url.value + RealmsRoute + LookupOr(env, KeycloakRealmVar, DefaultRealm) + TokenRoute;
      Some(KeycloakRequest(tokenUrl, LookupOr(env, KeycloakClientIdVar, DefaultClientId), secret.value))
    else None
  }

  /** What `get_auth_token` returns, with the Keycloak request it sent, if any. */
  datatype TokenLookup = TokenLookup(token: Option<string>, keycloak: Option<KeycloakRequest>)

  /**
   * The token-source precedence: the environment's token, else the trimmed
   * token file, else Keycloak when both its URL and secret are set, else None.
   * `tokenFile` is the text of `~/.config/thinkube/token`, None when that
   * file does not exist; `keycloakReply` is the `access_token` of a successful reply, None when
   * the request or the reply fails.
   */
  function AuthToken(env: map<string, string>, tokenFile: Option<string>, keycloakReply: Option<string>): (t: TokenLookup)
    ensures Truthy(Lookup(env, ControlTokenVar)) ==> t == TokenLookup(Lookup(env, ControlTokenVar), None)
    ensures !Truthy(Lookup(env, ControlTokenVar)) && tokenFile.Some? ==>
      t.keycloak.None? && t.token.Some? && IsStripOf(tokenFile.value, t.token.value)
    ensures t.keycloak.Some? <==>
      !Truthy(Lookup(env, ControlTokenVar)) && tokenFile.None?
      && Truthy(Lookup(env, KeycloakUrlVar)) && Truthy(Lookup(env, KeycloakSecretVar))
    ensures t.keycloak.Some? ==> t.keycloak == KeycloakRequestFor(env) && t.token == keycloakReply
    ensures !Truthy(Lookup(env, ControlTokenVar)) && tokenFile.None? && t.keycloak.None? ==> t.token.None?
  {
    var envToken := Lookup(env, ControlTokenVar);
    if Truthy(envToken) then TokenLookup(envToken, None)
    else if tokenFile.Some? then
      StripIsStripOf(tokenFile.value);
      TokenLookup(Some(Strip(tokenFile.value)), None)
    else
      var request := KeycloakRequestFor(env);
      if request.Some? then TokenLookup(keycloakReply, request) else TokenLookup(None, None)
  }

  /** `get_auth_token`, with its sequence of early returns. */
  method GetAuthToken(env: map<string, string>, tokenFile: Option<string>, keycloakReply: Option<string>)
    returns (token: Option<string>, request: Option<KeycloakRequest>)
    ensures TokenLookup(token, request) == AuthToken(env, tokenFile, keycloakReply)
  {
    request := None;
    token := Lookup(env, ControlTokenVar);
    if token.Some? && token.value != [] {
      return;
    }
    if tokenFile.Some? {
      token := Some(Strip(tokenFile.value));
      return;
    }
    var keycloakUrl := Lookup(env, KeycloakUrlVar);
    var clientId := LookupOr(env, KeycloakClientIdVar, DefaultClientId);
    var clientSecret := Lookup(env, KeycloakSecretVar);
    if Truthy(keycloakUrl) && Truthy(clientSecret) {
      var realm := LookupOr(env, KeycloakRealmVar, DefaultRealm);
      var tokenUrl := keycloakUrl.value + RealmsRoute + realm + TokenRoute;
      request := Some(KeycloakRequest(tokenUrl, clientId, clientSecret.value));
      if keycloakReply.Some? {
        token := keycloakReply;
        return;
      }
    }
    token := None;
  }

  // ---------------------------------------------------------------------
  // Staging
  // ---------------------------------------------------------------------

  /** `STAGING_PATH`: `~/thinkube/mlflow/.staging`. */
  function StagingRoot(home: string): string {
    Paths.Join(Paths.Join(Paths.Join(home, "thinkube"), "mlflow"), ".staging")
  }

  /**
   * `get_staging_path`: the model's directory under the staging root for a
   * non-empty name, the root itself otherwise. As with any `pathlib` join,
   * an absolute name is taken as it is.
   */
  function GetStagingPath(home: string, name: Option<string>): (p: string)
    ensures !Truthy(name) ==> p == StagingRoot(home)
    ensures Truthy(name) && !Paths.IsAbsolute(name.value) ==>
      |p| == |StagingRoot(home)| + 1 + |name.value|
      && StartsWith(p, StagingRoot(home) + "/") && EndsWith(p, name.value)
    ensures Truthy(name) && Paths.IsAbsolute(name.value) ==> p == name.value
  {
    if Truthy(name) then
      var root := StagingRoot(home);
      var p := Paths.Join(root, name.value);
      assert !Paths.IsAbsolute(name.value) ==> p[..|root| + 1] == root + "/";
      p
    else StagingRoot(home)
  }

  // ---------------------------------------------------------------------
  // The registration as a whole
  // ---------------------------------------------------------------------

  /** The notebook's surroundings: home directory, environment, token file text, Keycloak's answer. */
  datatype Host = Host(
    home: string,
    env: map<string, string>,
    tokenFile: Option<string>,
    keycloakReply: Option<string>)

  /** The arguments of `register_finetuned_model` that shape the request. */
  datatype RegistrationArgs = RegistrationArgs(
    name: string,
    baseModel: string,
    task: string,
    serverType: string,
    description: Option<string>,
    quantization: string)

  const DefaultTask := "text-generation"
  const DefaultServerType := "tensorrt-llm"
  const DefaultQuantization := "FP8"

  /** The arguments of a call that passes only `name` and `base_model`. */
  function DefaultArgs(name: string, baseModel: string): RegistrationArgs {
    RegistrationArgs(name, baseModel, DefaultTask, DefaultServerType, None, DefaultQuantization)
  }

  /** How the model is written to the staging directory. */
  datatype SaveFormat = ModelOptCheckpoint | Pretrained

  /** The effects `register_finetuned_model` has, in order. */
  datatype Step =
    | Quantize(format: QuantizationFormat)
    | CreateStagingDirectory(path: string)
    | SaveModel(path: string, saveAs: SaveFormat)
    | SaveTokenizer(path: string)
    | RequestKeycloakToken(request: KeycloakRequest)
    | PostRegistration(url: string, headers: map<string, string>, payload: Payload)

  /** Quantizing unless the format is BF16, then writing model and tokenizer to `dir`. */
  function StagingSteps(f: QuantizationFormat, dir: string): (steps: seq<Step>)
    ensures |steps| == if f == BF16 then 3 else 4
    ensures forall i :: 0 <= i < |steps| ==> !steps[i].RequestKeycloakToken? && !steps[i].PostRegistration?
  {
    var quantize := if f == BF16 then [] else [Quantize(f)];
    var save := if f == BF16 then Pretrained else ModelOptCheckpoint;
    quantize + [CreateStagingDirectory(dir), SaveModel(dir, save), SaveTokenizer(dir)]
  }

  /** The request to Keycloak the token lookup sent, if it sent one. */
  function LoginSteps(auth: TokenLookup): (steps: seq<Step>)
    ensures |steps| <= 1
    ensures steps != [] <==> auth.keycloak.Some?
    ensures steps != [] ==> steps[0].RequestKeycloakToken?
  {
    if auth.keycloak.Some? then [RequestKeycloakToken(auth.keycloak.value)] else []
  }

  /**
   * `register_finetuned_model` up to the registration request: the gate,
   * quantization, saving to staging, the token lookup and the POST.
   * An unsupported format is an error with no step at all.
   */
  function RegisterFinetunedModel(host: Host, args: RegistrationArgs): (r: Result<seq<Step>, ModelsError>)
    ensures r.Err? <==> ParseQuantization(args.quantization).Err?
    ensures r.Err? ==> r.error == ValueError(UnsupportedPrefix + args.quantization + UnsupportedSuffix)
    ensures r.Ok? ==> |r.value| >= 4 && r.value[|r.value| - 1].PostRegistration?
  {
    match ParseQuantization(args.quantization)
    case Err(e) => Err(e)
    case Ok(f) =>
      var auth := AuthToken(host.env, host.tokenFile, host.keycloakReply);
      var payload := Payload(args.name, args.name, args.baseModel, args.task, args.serverType,
                             FullDescription(args.description, args.baseModel, f), args.quantization);
      var post := PostRegistration(RegisterUrl(GetThinkubeControlUrl(host.env)), RegistrationHeaders(auth.token), payload);
      Ok(StagingSteps(f, Paths.Join(StagingRoot(host.home), args.name)) + LoginSteps(auth) + [post])
  }

  /**
   * What the registration request carries: the source path is the model's
   * name; base model, task, server type and quantization are the arguments;
   * the description is the full one; the headers are the JSON content type
   * and the looked-up token; and it goes to the control plane's register
   * endpoint.
   */
  lemma RegistrationRequestContents(host: Host, args: RegistrationArgs, f: QuantizationFormat)
    requires f.Name() == args.quantization
    ensures RegisterFinetunedModel(host, args).Ok?
    ensures var steps := RegisterFinetunedModel(host, args).value;
      var post := steps[|steps| - 1];
      && post.payload.name == args.name
      && post.payload.sourcePath == args.name
      && post.payload.baseModel == args.baseModel
      && post.payload.task == args.task
      && post.payload.serverType == args.serverType
      && post.payload.quantization == args.quantization
      && post.payload.description == FullDescription(args.description, args.baseModel, f)
      && post.url == RegisterUrl(GetThinkubeControlUrl(host.env))
      && post.headers == RegistrationHeaders(AuthToken(host.env, host.tokenFile, host.keycloakReply).token)
      && ContentTypeHeader in post.headers && post.headers[ContentTypeHeader] == JsonMediaType
      && (AuthorizationHeader in post.headers <==> Truthy(AuthToken(host.env, host.tokenFile, host.keycloakReply).token))
  {
    QuantizationRoundTrip(f);
  }

  /**
   * The model is quantized first unless it stays in BF16, and is saved in
   * the staging directory of its `source_path` before the request is posted.
   */
  lemma SavedWhereRegistered(host: Host, args: RegistrationArgs, f: QuantizationFormat)
    requires f.Name() == args.quantization
    ensures RegisterFinetunedModel(host, args).Ok?
    ensures var steps := RegisterFinetunedModel(host, args).value;
      var post := steps[|steps| - 1];
      var dir := GetStagingPath(host.home, Some(post.payload.sourcePath));
      && (steps[0] == Quantize(f) <==> f != BF16)
      && (exists i :: 0 <= i < |steps| - 1 && steps[i] == CreateStagingDirectory(dir))
      && (exists i :: 0 <= i < |steps| - 1 && steps[i].SaveModel? && steps[i].path == dir)
  {
    QuantizationRoundTrip(f);
    var steps := RegisterFinetunedModel(host, args).value;
    var dir := GetStagingPath(host.home, Some(args.name));
    var staging := StagingSteps(f, dir);
    var k := if f == BF16 then 0 else 1;
    assert staging[k] == CreateStagingDirectory(dir);
    assert staging[k + 1] == SaveModel(dir, if f == BF16 then Pretrained else ModelOptCheckpoint);
    assert steps[k] == staging[k] && steps[k + 1] == staging[k + 1];
  }

  /** Keycloak is asked for a token during registration only when no other source has one. */
  lemma KeycloakOnlyAsLastResort(host: Host, args: RegistrationArgs, f: QuantizationFormat)
    requires f.Name() == args.quantization
    ensures RegisterFinetunedModel(host, args).Ok?
    ensures var steps := RegisterFinetunedModel(host, args).value;
      (exists i :: 0 <= i < |steps| && steps[i].RequestKeycloakToken?)
      <==> !Truthy(Lookup(host.env, ControlTokenVar)) && host.tokenFile.None?
           && Truthy(Lookup(host.env, KeycloakUrlVar)) && Truthy(Lookup(host.env, KeycloakSecretVar))
  {
    QuantizationRoundTrip(f);
    var steps := RegisterFinetunedModel(host, args).value;
    var auth := AuthToken(host.env, host.tokenFile, host.keycloakReply);
    var staging := StagingSteps(f, Paths.Join(StagingRoot(host.home), args.name));
    var login := LoginSteps(auth);
    assert steps == staging + login + [steps[|steps| - 1]];
    if auth.keycloak.Some? {
      assert steps[|staging|] == login[0];
    } else {
      forall i | 0 <= i < |steps| ensures !steps[i].RequestKeycloakToken? {
        if i < |staging| {
          assert steps[i] == staging[i];
        }
      }
    }
  }

  /**
   * A registration given only a name and a base model quantizes to FP8,
   * saves a ModelOpt checkpoint, and registers a text-generation model for
   * TensorRT-LLM described as fine-tuned from the base model.
   */
  lemma DefaultRegistration(host: Host, name: string, baseModel: string)
    ensures RegisterFinetunedModel(host, DefaultArgs(name, baseModel)).Ok?
    ensures var steps := RegisterFinetunedModel(host, DefaultArgs(name, baseModel)).value;
      var payload := steps[|steps| - 1].payload;
      && steps[0] == Quantize(FP8)
      && steps[2].SaveModel? && steps[2].saveAs == ModelOptCheckpoint
      && payload.task == "text-generation" && payload.serverType == "tensorrt-llm"
      && payload.quantization == "FP8"
      && payload.description == "Fine-tuned from " + baseModel + " (FP8)"
  {
    var args := DefaultArgs(name, baseModel);
    QuantizationRoundTrip(FP8);
    var dir := Paths.Join(StagingRoot(host.home), name);
    var staging := StagingSteps(FP8, dir);
    var auth := AuthToken(host.env, host.tokenFile, host.keycloakReply);
    var payload := Payload(name, name, baseModel, DefaultTask, DefaultServerType,
                           FullDescription(None, baseModel, FP8), DefaultQuantization);
    var post := PostRegistration(RegisterUrl(GetThinkubeControlUrl(host.env)), RegistrationHeaders(auth.token), payload);
    DefaultStaging(dir);
    DefaultDescription(baseModel);
    AppendedSteps(staging, LoginSteps(auth), post);
  }

  lemma DefaultStaging(dir: string)
    ensures StagingSteps(FP8, dir) == [Quantize(FP8), CreateStagingDirectory(dir), SaveModel(dir, ModelOptCheckpoint), SaveTokenizer(dir)]
  {
  }

  lemma DefaultDescription(baseModel: string)
    ensures FullDescription(None, baseModel, FP8) == "Fine-tuned from " + baseModel + " (FP8)"
  {
  }

  lemma AppendedSteps(staging: seq<Step>, login: seq<Step>, post: Step)
    requires |staging| >= 3
    ensures var steps := staging + login + [post];
      steps[0] == staging[0] && steps[2] == staging[2] && steps[|steps| - 1] == post
  {
  }
}
