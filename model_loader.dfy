/** The viewer's single current-model slot: dispose-before-load, dispatch on the
    file extension, the fallback box, scaling, and the start-up choice between
    the `model` query parameter and the default model URL.

    The engine's loaders, the URL parser and `decodeURIComponent` are not part
    of this model: their outcomes arrive as inputs (`LoaderEnv`, `decoded`). */
module ModelLoader {
  import opened Common
  import opened FileExtension

  const DefaultModelUrl: string :=
    "https://raw.githubusercontent.com/CedricGuillemet/dump/master/Halo_Believe.splat"
  /** The path a URL parser gives for DefaultModelUrl. */
  const DefaultModelPath: string := "/CedricGuillemet/dump/master/Halo_Believe.splat"
  const FallbackAlert: string := "Failed to load model. Creating fallback box."
  const MissingUrlAlert: string := "Please provide a valid model URL."
  const MissingFileAlert: string := "Please select a .splat, .ply, or .spz file to load."

  /** The tag kept beside the current model: 'mesh' or 'splat'. */
  datatype ModelType = MeshModel | SplatModel

  /** Which engine object sits in the slot. */
  datatype Origin = ImportedMesh | GaussianSplat | FallbackBox

  /** What the viewer itself does to the model object: the vertical position it
      assigns (None: left as the loader made it), the uniform scale it assigns
      (None: never scaled), and whether it marked the object pickable. */
  datatype Handle = Handle(origin: Origin, positionY: Option<real>, scaling: Option<real>, pickable: bool)

  /** One entry of the mesh list the generic importer resolves with: only
      whether it is a `Mesh` (and so can be marked pickable) matters here. */
  datatype ImportedNode = ImportedNode(isMesh: bool)

  /** What `loadModel` is called with: a selected file (by its name), a string,
      or any other value. */
  datatype Source = FileSource(name: string) | UrlString(text: string) | OtherSource

  /** The outcomes of the engine calls one load attempt makes: the URL parser
      (None: it throws), the generic importer (None: it rejects), and the
      splat loader (false: it rejects). */
  datatype LoaderEnv = LoaderEnv(parsed: Option<ParsedUrl>, imported: Option<seq<ImportedNode>>, splatLoads: bool)

  /** The two errors `loadModel` throws before its `try` block. */
  datatype LoadError = InvalidUrlFormat | UnsupportedSourceType

  datatype LoadResult = Returned(model: Handle) | Threw(error: LoadError)

  /** The slot and the side effects the loader has: the models disposed so far,
      in order, whether the loading spinner is shown, and the alerts raised. */
  datatype SlotState = SlotState(
    current: Option<Handle>,
    currentType: Option<ModelType>,
    disposed: seq<Handle>,
    spinnerVisible: bool,
    alerts: seq<string>)

  datatype LoadStep = LoadStep(state: SlotState, result: LoadResult)

  const FallbackHandle: Handle := Handle(FallbackBox, None, None, false)

  function KindOf(o: Origin): ModelType {
    if o == GaussianSplat then SplatModel else MeshModel
  }

  /** The slot invariant: a model is present exactly when its tag is, and the
      tag matches the kind of object. */
  predicate Consistent(s: SlotState) {
    (s.current.Some? <==> s.currentType.Some?) &&
    (s.current.Some? ==> s.currentType.value == KindOf(s.current.value.origin))
  }

  /** `disposeCurrentModel`. */
  function Dispose(s: SlotState): (r: SlotState)
    ensures r.current.None?
    ensures Consistent(s) ==> r.currentType.None? && Consistent(r)
    ensures s.current.None? ==> r == s
    ensures Consistent(s) && s.current.Some? ==> r.disposed == s.disposed + [s.current.value]
    ensures r.disposed == s.disposed || r.disposed == s.disposed + [s.current.value]
    ensures r.spinnerVisible == s.spinnerVisible && r.alerts == s.alerts
  {
    if s.current.None? then s
    else
      var gone := if s.currentType.Some? then s.disposed + [s.current.value] else s.disposed;
      s.(current := None, currentType := None, disposed := gone)
  }

  /** `scaleModel`: sets the uniform scale of the current model, if any. */
  function Scale(s: SlotState, v: real): (r: SlotState)
    ensures r.current.Some? <==> s.current.Some?
    ensures r.current.Some? ==> r.current.value == s.current.value.(scaling := Some(v))
    ensures r.currentType == s.currentType && r.disposed == s.disposed
    ensures r.spinnerVisible == s.spinnerVisible && r.alerts == s.alerts
    ensures Consistent(s) ==> Consistent(r)
  {
    if s.current.None? then s
    else s.(current := Some(s.current.value.(scaling := Some(v))))
  }

  lemma ExtensionHasNoDot(name: string)
    ensures '.' !in Extension(name)
  {
    RawExtensionIsLastSegment(name);
    ToLowerKeepsNoDot(RawExtension(name));
  }

  /** The part of `loadModel` before its `try`: the extension, or the error
      thrown for a malformed URL or a source that is neither a file nor a string. */
  function SourceExtension(source: Source, parsed: Option<ParsedUrl>): (r: Result<string, LoadError>)
    ensures r.Failure? <==> source.OtherSource? || (source.UrlString? && parsed.None?)
    ensures r == Failure(InvalidUrlFormat) <==> source.UrlString? && parsed.None?
    ensures source.FileSource? ==> r == Success(Extension(source.name))
    ensures source.UrlString? && parsed.Some? ==> r == Success(UrlExtension(parsed.value))
    ensures r.Success? ==> '.' !in r.value
  {
    match source
    case FileSource(name) =>
      ExtensionHasNoDot(name);
      Success(Extension(name))
    case UrlString(_) =>
      if parsed.None? then Failure(InvalidUrlFormat)
      else
        ExtensionHasNoDot(parsed.value.pathname);
        Success(UrlExtension(parsed.value))
    case OtherSource =>
      Failure(UnsupportedSourceType)
  }

  /** The model the `try` block installs, or None when something in it throws:
      an unsupported extension, a rejected loader, or an import that resolved
      with no mesh (reading `position` of `meshes[0]` then throws). */
  function TryLoad(ext: string, env: LoaderEnv): (r: Option<Handle>)
    ensures r.None? <==>
      Dispatch(ext) == UnsupportedFormat ||
      (Dispatch(ext) == SpzFormat && (env.imported.None? || |env.imported.value| == 0)) ||
      (Dispatch(ext) == SplatFormat && !env.splatLoads)
    ensures r.Some? && ext == "spz" ==>
      r.value.origin == ImportedMesh && r.value.positionY == Some(0.0) &&
      r.value.pickable == env.imported.value[0].isMesh
    ensures r.Some? && (ext == "splat" || ext == "ply") ==>
      r.value.origin == GaussianSplat && r.value.pickable
    ensures r.Some? ==> r.value.origin != FallbackBox && r.value.scaling.None?
  {
    match Dispatch(ext)
    case SpzFormat =>
      if env.imported.Some? && |env.imported.value| > 0 then
        Some(Handle(ImportedMesh, Some(0.0), None, env.imported.value[0].isMesh))
      else None
    case SplatFormat =>
      if env.splatLoads then Some(Handle(GaussianSplat, None, None, true)) else None
    case UnsupportedFormat =>
      None
  }

  /** `loadModel`: the new slot state and what the call returns or throws. */
  function Load(s: SlotState, source: Source, env: LoaderEnv): (r: LoadStep)
    ensures r.state.disposed == Dispose(s).disposed
    ensures Consistent(s) ==> Consistent(r.state)
    ensures r.result.Returned? ==> Consistent(r.state)
    ensures r.result.Threw? <==> SourceExtension(source, env.parsed).Failure?
    ensures r.result.Threw? ==>
      r.state.current.None? && r.state.spinnerVisible && r.state.alerts == s.alerts
    ensures r.result.Returned? ==>
      r.state.current == Some(r.result.model) && !r.state.spinnerVisible
    ensures r.result.Returned? && r.result.model.origin == FallbackBox ==>
      r.state.alerts == s.alerts + [FallbackAlert]
    ensures r.result.Returned? && r.result.model.origin != FallbackBox ==>
      r.state.alerts == s.alerts && r.result.model.scaling == Some(1.0)
  {
    var emptied := Dispose(s).(spinnerVisible := true);
    match SourceExtension(source, env.parsed)
    case Failure(e) =>
      LoadStep(emptied, Threw(e))
    case Success(ext) =>
      var settled :=
        match TryLoad(ext, env)
        case Some(h) =>
          Scale(emptied.(current := Some(h), currentType := Some(KindOf(h.origin))), 1.0)
        case None =>
          emptied.(current := Some(FallbackHandle), currentType := Some(MeshModel),
                   alerts := emptied.alerts + [FallbackAlert]);
      LoadStep(settled.(spinnerVisible := false), Returned(settled.current.value))
  }

  /** The start-up choice: the `model` query parameter when present and
      non-empty, the default URL otherwise, and the default URL again when
      decoding the parameter or loading from it throws. */
  function Startup(s: SlotState, param: Option<string>, decoded: Option<string>,
                   paramEnv: LoaderEnv, defaultEnv: LoaderEnv): (r: SlotState)
    ensures Consistent(s) ==> Consistent(r)
    ensures defaultEnv.parsed.Some? ==> r.current.Some? && Consistent(r)
    ensures r.disposed == Dispose(s).disposed
  {
    var fromDefault := Load(s, UrlString(DefaultModelUrl), defaultEnv).state;
    if param.None? || param.value == "" || decoded.None? then fromDefault
    else
      var first := Load(s, UrlString(decoded.value), paramEnv);
      if first.result.Threw? then Load(first.state, UrlString(DefaultModelUrl), defaultEnv).state
      else first.state
  }

  /** Disposing twice is disposing once. */
  lemma DisposeIdempotent(s: SlotState)
    ensures Dispose(Dispose(s)) == Dispose(s)
  {
  }

  /** An `spz` file or path becomes a mesh at height 0, scaled 1. */
  lemma LoadSpz(s: SlotState, source: Source, env: LoaderEnv)
    requires SourceExtension(source, env.parsed) == Success("spz")
    requires env.imported.Some? && |env.imported.value| > 0
    ensures var r := Load(s, source, env);
      r.result.Returned? && r.state.currentType == Some(MeshModel) &&
      r.result.model == Handle(ImportedMesh, Some(0.0), Some(1.0), env.imported.value[0].isMesh)
  {
  }

  /** A `splat` or `ply` file or path becomes a splat, pickable, scaled 1. */
  lemma LoadSplatOrPly(s: SlotState, source: Source, env: LoaderEnv, ext: string)
    requires ext == "splat" || ext == "ply"
    requires SourceExtension(source, env.parsed) == Success(ext)
    requires env.splatLoads
    ensures var r := Load(s, source, env);
      r.result.Returned? && r.state.currentType == Some(SplatModel) &&
      r.result.model == Handle(GaussianSplat, None, Some(1.0), true)
  {
  }

  /** Any other extension, and any failure inside the `try`, leaves the
      fallback box in the slot, tagged 'mesh', and raises one alert. */
  lemma LoadFallsBack(s: SlotState, source: Source, env: LoaderEnv, ext: string)
    requires SourceExtension(source, env.parsed) == Success(ext)
    requires Dispatch(ext) == UnsupportedFormat ||
             (Dispatch(ext) == SpzFormat && (env.imported.None? || |env.imported.value| == 0)) ||
             (Dispatch(ext) == SplatFormat && !env.splatLoads)
    ensures var r := Load(s, source, env);
      r.result == Returned(FallbackHandle) && r.state.currentType == Some(MeshModel) &&
      r.state.alerts == s.alerts + [FallbackAlert] && !r.state.spinnerVisible
  {
  }

  /** A malformed URL or a source of the wrong type throws before the `try`:
      the slot stays empty and the spinner stays shown. */
  lemma LoadThrowsBeforeTry(s: SlotState, source: Source, env: LoaderEnv)
    requires source.OtherSource? || (source.UrlString? && env.parsed.None?)
    ensures var r := Load(s, source, env);
      r.result.Threw? && r.state == Dispose(s).(spinnerVisible := true)
  {
  }

  /** Upper case and extra dots in a file name do not change the dispatch. */
  lemma FileNameExample(s: SlotState, env: LoaderEnv)
    requires env.splatLoads
    ensures Load(s, FileSource("A.B.SPLAT"), env).state.currentType == Some(SplatModel)
  {
    UpperCaseDoubleDotExample();
  }

  /** Loading a second model disposes the model the first load returned, and
      nothing else, before anything new is installed. */
  lemma SecondLoadDisposesFirst(s: SlotState, src1: Source, env1: LoaderEnv, src2: Source, env2: LoaderEnv)
    requires Load(s, src1, env1).result.Returned?
    ensures var first := Load(s, src1, env1);
      Load(first.state, src2, env2).state.disposed == first.state.disposed + [first.result.model]
  {
    var first := Load(s, src1, env1);
    assert Consistent(first.state);
  }

  /** The default URL names a splat file. */
  lemma DefaultModelIsSplat()
    ensures UrlExtension(ParsedUrl(DefaultModelPath, "", "")) == "splat"
  {
    assert DefaultModelPath == "/CedricGuillemet/dump/master/Halo_Believe" + "." + "splat";
    ExtensionAfterLastDot("/CedricGuillemet/dump/master/Halo_Believe", "splat");
    var t := ToLower("splat");
    assert t[0] == 's' && t[1] == 'p' && t[2] == 'l' && t[3] == 'a' && t[4] == 't';
  }

  /** A `model` parameter that is not a well-formed URL falls back to the
      default URL, after the first attempt has emptied the slot. */
  lemma StartupFallsBackToDefault(s: SlotState, param: string, decoded: string,
                                  paramEnv: LoaderEnv, defaultEnv: LoaderEnv)
    requires param != "" && paramEnv.parsed.None?
    ensures var first := Load(s, UrlString(decoded), paramEnv);
      Startup(s, Some(param), Some(decoded), paramEnv, defaultEnv) ==
        Load(first.state, UrlString(DefaultModelUrl), defaultEnv).state
    ensures Startup(s, Some(param), Some(decoded), paramEnv, defaultEnv).current ==
            Load(s, UrlString(DefaultModelUrl), defaultEnv).state.current
  {
  }

  /** A `model` parameter that parses is used even when its loader fails: the
      fallback box stays, and the default URL is not tried. */
  lemma StartupKeepsParamFallback(s: SlotState, param: string, decoded: string,
                                  paramEnv: LoaderEnv, defaultEnv: LoaderEnv)
    requires param != "" && paramEnv.parsed.Some?
    requires Dispatch(UrlExtension(paramEnv.parsed.value)) == UnsupportedFormat
    ensures Startup(s, Some(param), Some(decoded), paramEnv, defaultEnv) ==
            Load(s, UrlString(decoded), paramEnv).state
    ensures Startup(s, Some(param), Some(decoded), paramEnv, defaultEnv).current == Some(FallbackHandle)
  {
  }

  /** A `model` parameter that decodes to a well-formed URL decides the slot
      on its own, whatever its loader does: the default URL is not tried. */
  lemma StartupUsesParam(s: SlotState, param: string, decoded: string,
                         paramEnv: LoaderEnv, defaultEnv: LoaderEnv)
    requires param != "" && paramEnv.parsed.Some?
    ensures Startup(s, Some(param), Some(decoded), paramEnv, defaultEnv) ==
            Load(s, UrlString(decoded), paramEnv).state
  {
  }

  /** No `model` parameter, an empty one, or one that `decodeURIComponent`
      rejects: only the default URL is loaded, from the slot as it was. */
  lemma StartupWithoutParam(s: SlotState, param: Option<string>, decoded: Option<string>,
                            paramEnv: LoaderEnv, defaultEnv: LoaderEnv)
    requires param.None? || param.value == "" || decoded.None?
    ensures Startup(s, param, decoded, paramEnv, defaultEnv) ==
            Load(s, UrlString(DefaultModelUrl), defaultEnv).state
  {
  }

  /** The viewer's model slot with its module-level variables as fields. */
  class ModelSlot {
    var currentModel: Option<Handle>
    var currentModelType: Option<ModelType>
    var disposed: seq<Handle>
    var spinnerVisible: bool
    var alerts: seq<string>

    function State(): SlotState
      reads this
    {
      SlotState(currentModel, currentModelType, disposed, spinnerVisible, alerts)
    }

    constructor ()
      ensures State() == SlotState(None, None, [], false, [])
    {
      currentModel, currentModelType := None, None;
      disposed, spinnerVisible, alerts := [], false, [];
    }

    method DisposeCurrentModel()
      modifies this
      ensures State() == Dispose(old(State()))
    {
      if currentModel.None? {
        return;
      }
      if currentModelType.Some? {
        disposed := disposed + [currentModel.value];
      }
      currentModel := None;
      currentModelType := None;
    }

    method ScaleModel(v: real)
      modifies this
      ensures State() == Scale(old(State()), v)
    {
      if currentModel.None? {
        return;
      }
      currentModel := Some(currentModel.value.(scaling := Some(v)));
    }

    method LoadModel(source: Source, env: LoaderEnv) returns (r: LoadResult)
      modifies this
      ensures LoadStep(State(), r) == Load(old(State()), source, env)
    {
      DisposeCurrentModel();
      spinnerVisible := true;

      var ext: string;
      match source {
        case FileSource(name) =>
          ext := Extension(name);
        case UrlString(_) =>
          if env.parsed.None? {
            return Threw(InvalidUrlFormat);
          }
          ext := UrlExtension(env.parsed.value);
        case OtherSource =>
          return Threw(UnsupportedSourceType);
      }

      var installed := false;
      if ext == "spz" {
        if env.imported.Some? && |env.imported.value| > 0 {
          var first := env.imported.value[0];
          currentModel := Some(Handle(ImportedMesh, Some(0.0), None, first.isMesh));
          currentModelType := Some(MeshModel);
          installed := true;
        }
      } else if ext == "splat" || ext == "ply" {
        if env.splatLoads {
          currentModel := Some(Handle(GaussianSplat, None, None, true));
          currentModelType := Some(SplatModel);
          installed := true;
        }
      }

      if installed {
        ScaleModel(1.0);
      } else {
        alerts := alerts + [FallbackAlert];
        currentModel := Some(FallbackHandle);
        currentModelType := Some(MeshModel);
      }

      spinnerVisible := false;
      r := Returned(currentModel.value);
    }

    /** The start-up sequence at the end of scene creation. */
    method LoadAtStartup(param: Option<string>, decoded: Option<string>,
                         paramEnv: LoaderEnv, defaultEnv: LoaderEnv)
      modifies this
      ensures State() == Startup(old(State()), param, decoded, paramEnv, defaultEnv)
    {
      if param.Some? && param.value != "" && decoded.Some? {
        var r := LoadModel(UrlString(decoded.value), paramEnv);
        if r.Threw? {
          r := LoadModel(UrlString(DefaultModelUrl), defaultEnv);
        }
      } else {
        var _ := LoadModel(UrlString(DefaultModelUrl), defaultEnv);
      }
    }

    /** The "Load from URL" button: an empty input only raises an alert. */
    method OnLoadUrlButton(text: string, env: LoaderEnv) returns (r: Option<LoadResult>)
      modifies this
      ensures text == "" ==> r.None? && State() == old(State()).(alerts := old(alerts) + [MissingUrlAlert])
      ensures text != "" ==> r.Some? && LoadStep(State(), r.value) == Load(old(State()), UrlString(text), env)
    {
      if text != "" {
        var result := LoadModel(UrlString(text), env);
        r := Some(result);
      } else {
        alerts := alerts + [MissingUrlAlert];
        r := None;
      }
    }

    /** The "Load from File" button: with no file selected it only raises an alert. */
    method OnLoadFileButton(files: seq<string>, env: LoaderEnv) returns (r: Option<LoadResult>)
      modifies this
      ensures files == [] ==> r.None? && State() == old(State()).(alerts := old(alerts) + [MissingFileAlert])
      ensures files != [] ==> r.Some? && LoadStep(State(), r.value) == Load(old(State()), FileSource(files[0]), env)
    {
      if |files| > 0 {
        var result := LoadModel(FileSource(files[0]), env);
        r := Some(result);
      } else {
        alerts := alerts + [MissingFileAlert];
        r := None;
      }
    }
  }
}
