/** The image-analysis panel of the page: the choice between an image URL
    typed by the user and a local file they picked (the two are mutually
    exclusive), and the analysis request built from whichever is present. */
module ImageAnalysis {
  import opened Web

  /** `inputMethod`. */
  datatype InputMethod = Url | Local

  /** A file picked in the file input; the page shows only its name. */
  datatype File = File(name: string)

  /** The decoded body of a reply from the analysis endpoint. */
  datatype AnalyzeData = AnalyzeData(error: Option<string>, result: Option<string>)

  const NO_INPUT_ALERT := "请输入图片URL或上传本地图片"
  const ANALYSIS_FAILED := "分析过程中发生错误，请稍后重试。"

  /** Object URLs made by `URL.createObjectURL` use the blob: scheme. */
  predicate IsObjectUrl(u: string) {
    "blob:" <= u
  }

  /** The four fields that describe the selected image. */
  datatype Selection = Selection(
    inputMethod: InputMethod,
    imageUrl: string,
    localImage: Option<File>,
    localImageUrl: Option<string>)

  /** The selection invariant: local mode exactly when a file and its object
      URL are both held, the two are held together, and in local mode the URL
      field is empty. */
  predicate Coherent(s: Selection) {
    (s.inputMethod == Local <==> s.localImage.Some? && s.localImageUrl.Some?)
    && (s.localImage.Some? <==> s.localImageUrl.Some?)
    && (s.inputMethod == Local ==> s.imageUrl == "")
    && (s.localImageUrl.Some? ==> IsObjectUrl(s.localImageUrl.value))
  }

  /** The guard of `handleAnalyze`: a non-blank URL or a local object URL. */
  predicate HasInput(s: Selection) {
    !IsBlank(s.imageUrl) || Truthy(s.localImageUrl)
  }

  /** The `disabled` condition of the analyze button, negated: it tests the
      URL field without trimming it. */
  predicate AnalyzeEnabled(s: Selection, loading: bool) {
    (s.imageUrl != "" || Truthy(s.localImageUrl)) && !loading
  }

  /** The image string the analysis request carries: the data URL the file
      reader produced for a local file (None when reading failed), otherwise
      the URL field as typed. */
  function Payload(s: Selection, reading: Option<string>): Option<string> {
    if s.inputMethod == Local && s.localImage.Some? then reading else Some(s.imageUrl)
  }

  /** What `result` becomes once the analysis request has been answered. */
  function AnalysisResult(reply: Exchange<AnalyzeData>): Option<string> {
    match reply
    case Rejected(_) => Some(ANALYSIS_FAILED)
    case Answered(ok, d) => if !ok || Truthy(d.error) then Some(ANALYSIS_FAILED) else d.result
  }

  // ---------------------------------------------------------------------------
  // Properties of the specification

  /** On a coherent selection the guard asks for exactly one thing: local mode,
      or a URL that is not blank. */
  lemma GuardFollowsMode(s: Selection)
    requires Coherent(s)
    ensures HasInput(s) <==> s.inputMethod == Local || !IsBlank(s.imageUrl)
  {
  }

  /** In local mode the request carries the file's data URL, never the URL
      field; in URL mode it carries the typed URL, which the guard has found
      not blank. */
  lemma PayloadFollowsMode(s: Selection, reading: Option<string>)
    requires Coherent(s) && HasInput(s)
    ensures s.inputMethod == Local ==> Payload(s, reading) == reading
    ensures s.inputMethod == Url ==> Payload(s, reading) == Some(s.imageUrl) && !IsBlank(s.imageUrl)
  {
  }

  /** The button is enabled whenever the handler would send a request, but
      not conversely: a URL made only of white space enables the button and
      is then refused by the handler. */
  lemma GuardStricterThanButton(s: Selection)
    ensures HasInput(s) ==> AnalyzeEnabled(s, false)
    ensures var blankUrl := Selection(Url, " ", None, None);
      Coherent(blankUrl) && AnalyzeEnabled(blankUrl, false) && !HasInput(blankUrl)
  {
  }

  /** The analysis text is the reply's `result` after a successful reply
      without an error, and the fixed apology after every failure. */
  lemma AnalysisResultCases(reply: Exchange<AnalyzeData>)
    ensures reply.Answered? && reply.ok && !Truthy(reply.data.error) ==> AnalysisResult(reply) == reply.data.result
    ensures !(reply.Answered? && reply.ok && !Truthy(reply.data.error)) ==> AnalysisResult(reply) == Some(ANALYSIS_FAILED)
  {
  }

  // ---------------------------------------------------------------------------
  // The state and its handlers

  class AnalysisPanel {
    var imageUrl: string
    var localImage: Option<File>
    var localImageUrl: Option<string>
    var inputMethod: InputMethod
    var showPreview: bool
    var imageLoading: bool
    var result: Option<string>
    var loading: bool
    /** Every request the panel has sent, oldest first. */
    var sent: seq<Request>
    /** Object URLs created and not yet revoked. */
    ghost var liveObjectUrls: set<string>

    function Current(): Selection
      reads this
    {
      Selection(inputMethod, imageUrl, localImage, localImageUrl)
    }

    /** The selection invariant holds, the only live object URL is the one
        held, and no analysis is in progress between events. */
    ghost predicate Valid()
      reads this
    {
      Coherent(Current()) && liveObjectUrls == Members(localImageUrl) && !loading
    }

    constructor ()
      ensures Valid()
      ensures Current() == Selection(Url, "", None, None)
      ensures !showPreview && !imageLoading && result == Some("") && sent == []
    {
      imageUrl := "";
      localImage := None;
      localImageUrl := None;
      inputMethod := Url;
      showPreview := false;
      imageLoading := false;
      result := Some("");
      loading := false;
      sent := [];
      liveObjectUrls := {};
    }

    /** `handleImageUrlChange`: typing a URL switches to URL mode and drops
        any local image, revoking its object URL. */
    method ImageUrlChange(url: string)
      requires Valid()
      modifies this
      ensures Valid()
      ensures Current() == Selection(Url, url, None, None) && liveObjectUrls == {}
      ensures !showPreview
      ensures imageLoading == (old(imageLoading) && !old(showPreview))
      ensures result == old(result) && sent == old(sent)
    {
      imageUrl := url;
      if showPreview {
        showPreview := false;
        imageLoading := false;
      }
      inputMethod := Url;
      if Truthy(localImageUrl) {
        liveObjectUrls := liveObjectUrls - {localImageUrl.value};
        localImageUrl := None;
        localImage := None;
      }
    }

    /** `handleLocalImageChange`, given the picked files (none when the
        dialog was cancelled) and the URL `URL.createObjectURL` returns. */
    method LocalImageChange(files: seq<File>, objectUrl: string)
      requires Valid() && IsObjectUrl(objectUrl)
      modifies this
      ensures Valid()
      ensures files == [] ==>
        Current() == old(Current()) && liveObjectUrls == old(liveObjectUrls)
        && showPreview == old(showPreview) && imageLoading == old(imageLoading)
      ensures files != [] ==>
        Current() == Selection(Local, "", Some(files[0]), Some(objectUrl))
        && liveObjectUrls == {objectUrl} && showPreview && imageLoading
      ensures result == old(result) && sent == old(sent)
    {
      if |files| > 0 {
        var file := files[0];
        if Truthy(localImageUrl) {
          liveObjectUrls := liveObjectUrls - {localImageUrl.value};
        }
        liveObjectUrls := liveObjectUrls + {objectUrl};
        localImage := Some(file);
        localImageUrl := Some(objectUrl);
        inputMethod := Local;
        imageUrl := "";
        imageLoading := true;
        showPreview := true;
      }
    }

    /** The clear button's handler: drops the local image, revoking its
        object URL, and returns to URL mode with the URL field as it was. */
    method ClearLocalImage()
      requires Valid()
      modifies this
      ensures Valid()
      ensures Current() == Selection(Url, old(imageUrl), None, None) && liveObjectUrls == {}
      ensures !showPreview && imageLoading == old(imageLoading)
      ensures result == old(result) && sent == old(sent)
    {
      if Truthy(localImageUrl) {
        liveObjectUrls := liveObjectUrls - {localImageUrl.value};
      }
      localImage := None;
      localImageUrl := None;
      inputMethod := Url;
      showPreview := false;
    }

    /** `handleAnalyze`, given what the file reader produces for a local file
        (None when it fails) and the reply of the analysis endpoint. */
    method Analyze(reading: Option<string>, reply: Exchange<AnalyzeData>) returns (alert: Option<string>)
      requires Valid()
      modifies this
      ensures Valid()
      ensures Current() == old(Current()) && liveObjectUrls == old(liveObjectUrls)
      ensures showPreview == old(showPreview) && imageLoading == old(imageLoading)
      ensures !HasInput(Current()) ==>
        alert == Some(NO_INPUT_ALERT) && result == old(result) && sent == old(sent)
      ensures HasInput(Current()) ==>
        alert == None
        && match Payload(Current(), reading)
           case None => result == Some(ANALYSIS_FAILED) && sent == old(sent)
           case Some(image) =>
             result == AnalysisResult(reply) && sent == old(sent) + [Post(ANALYZE_PATH, "imageUrl", image)]
    {
      if IsBlank(imageUrl) && !Truthy(localImageUrl) {
        return Some(NO_INPUT_ALERT);
      }
      alert := None;
      loading := true;
      var imageUrlToSend := imageUrl;
      var caught := false;
      if inputMethod == Local && localImage.Some? {
        match reading {
          case None => caught := true;
          case Some(dataUrl) => imageUrlToSend := dataUrl;
        }
      }
      if !caught {
        sent := sent + [Post(ANALYZE_PATH, "imageUrl", imageUrlToSend)];
        match reply {
          case Rejected(_) =>
            caught := true;
          case Answered(ok, data) =>
            if !ok || Truthy(data.error) {
              caught := true;
            } else {
              result := data.result;
            }
        }
      }
      if caught {
        result := Some(ANALYSIS_FAILED);
      }
      loading := false;
    }
  }
}
