/** The text-to-image panel of the page: one request per click, whose reply
    either replaces the displayed image or raises an alert. */
module ImageGeneration {
  import opened Web

  /** The decoded body of a reply from the image generation endpoint. */
  datatype ImageData = ImageData(error: Option<string>, imageUrl: Option<string>)

  const EMPTY_PROMPT_ALERT := "请输入图片描述"
  const GENERATION_FAILED_ALERT := "生成过程中发生错误，请稍后重试"

  /** What a reply makes the handler do: show the returned image URL (which
      may be absent), or fail. */
  datatype Generation = Generated(imageUrl: Option<string>) | GenerationFailed

  function GenerationOf(reply: Exchange<ImageData>): Generation {
    match reply
    case Rejected(_) => GenerationFailed
    case Answered(ok, d) => if !ok || Truthy(d.error) then GenerationFailed else Generated(d.imageUrl)
  }

  /** A reply produces an image exactly when it is a successful response
      without an error, and the image is the reply's `imageUrl`. */
  lemma GeneratedIffAccepted(reply: Exchange<ImageData>)
    ensures GenerationOf(reply).Generated? <==> reply.Answered? && reply.ok && !Truthy(reply.data.error)
    ensures GenerationOf(reply).Generated? ==> GenerationOf(reply).imageUrl == reply.data.imageUrl
  {
  }

  class GenerationPanel {
    var prompt: string
    var generatedImage: Option<string>
    var generating: bool
    /** Every request the panel has sent, oldest first. */
    var sent: seq<Request>

    constructor ()
      ensures prompt == "" && generatedImage == None && !generating && sent == []
    {
      prompt := "";
      generatedImage := None;
      generating := false;
      sent := [];
    }

    /** The prompt text area's change handler. */
    method EditPrompt(text: string)
      modifies this`prompt
      ensures prompt == text
    {
      prompt := text;
    }

    /** `handleGenerate`, given the reply of the generation endpoint. */
    method Generate(reply: Exchange<ImageData>) returns (alert: Option<string>)
      modifies this
      ensures prompt == old(prompt)
      ensures IsBlank(prompt) ==>
        alert == Some(EMPTY_PROMPT_ALERT) && generatedImage == old(generatedImage)
        && generating == old(generating) && sent == old(sent)
      ensures !IsBlank(prompt) ==>
        !generating && sent == old(sent) + [Post(GENERATE_PATH, "prompt", prompt)]
        && match GenerationOf(reply)
           case Generated(url) => generatedImage == url && alert == None
           case GenerationFailed => generatedImage == old(generatedImage) && alert == Some(GENERATION_FAILED_ALERT)
    {
      if IsBlank(prompt) {
        return Some(EMPTY_PROMPT_ALERT);
      }
      alert := None;
      generating := true;
      sent := sent + [Post(GENERATE_PATH, "prompt", prompt)];
      var caught := false;
      match reply {
        case Rejected(_) =>
          caught := true;
        case Answered(ok, data) =>
          if !ok || Truthy(data.error) {
            caught := true;
          } else {
            generatedImage := data.imageUrl;
          }
      }
      if caught {
        alert := Some(GENERATION_FAILED_ALERT);
      }
      generating := false;
    }
  }
}
