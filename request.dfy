// What the generate action sends: the image parts the active tool needs, in
// order, the tool's instruction text as the last part, and the model and
// image configuration that the selected tier implies.
module Request {
  import opened Types
  import Downscale

  /** The two selectable cost/quality tiers. */
  datatype Tier = Flash | Pro

  /**
   * One part of the request payload: an image re-encoded as JPEG at its
   * downscaled size (the base64 payload itself is not modelled), or text.
   */
  datatype Part =
    | InlineImage(source: ImageFile, width: real, height: real, mimeType: string)
    | Text(text: string)

  datatype ImageConfig = ImageConfig(aspectRatio: string, imageSize: Option<string>)

  datatype GenerateRequest = GenerateRequest(apiKey: string, model: string, parts: seq<Part>, config: ImageConfig)

  const ProModel := "gemini-3-pro-image-preview"
  const FlashModel := "gemini-2.5-flash-image"

  /** The part an uploaded file becomes: a JPEG whose longer side is at most 1536. */
  function FileToPart(file: ImageFile): (p: Part)
    ensures p.InlineImage? && p.source == file && p.mimeType == "image/jpeg"
    ensures p.width <= Downscale.MaxDim && p.height <= Downscale.MaxDim
    ensures p.width * (file.height as real) == p.height * (file.width as real)
    ensures (p.width, p.height) == Downscale.ScaledSize(file.width as real, file.height as real)
  {
    var size := Downscale.ScaledSize(file.width as real, file.height as real);
    InlineImage(file, size.0, size.1, "image/jpeg")
  }

  function ToParts(files: seq<ImageFile>): (parts: seq<Part>)
    ensures |parts| == |files|
    ensures forall i :: 0 <= i < |files| ==> parts[i].InlineImage? && parts[i].source == files[i]
    ensures forall i :: 0 <= i < |files| ==> parts[i] == FileToPart(files[i])
  {
    seq(|files|, i requires 0 <= i < |files| => FileToPart(files[i]))
  }

  lemma ToPartsAppend(a: seq<ImageFile>, b: seq<ImageFile>)
    ensures ToParts(a + b) == ToParts(a) + ToParts(b)
  {
  }

  /** The picked files of the item slots, in slot order, skipping empty slots. */
  function PresentImages(items: seq<Slot>): (r: seq<ImageFile>)
    ensures |r| <= |items|
  {
    if items == [] then []
    else PresentImages(items[..|items| - 1]) + OptionToSeq(items[|items| - 1])
  }

  function OptionToSeq(slot: Slot): (r: seq<ImageFile>)
    ensures |r| <= 1 && (r == [] <==> slot.None?)
  {
    if slot.Some? then [slot.value] else []
  }

  lemma {:induction false} PresentImagesAppend(a: seq<Slot>, b: seq<Slot>)
    ensures PresentImages(a + b) == PresentImages(a) + PresentImages(b)
    decreases |b|
  {
    if b == [] {
      assert a + b == a;
    } else {
      var last := |b| - 1;
      assert (a + b)[..|a + b| - 1] == a + b[..last];
      PresentImagesAppend(a, b[..last]);
    }
  }

  /** A file is among the present images exactly when some slot holds it. */
  lemma {:induction false} PresentImagesMembers(items: seq<Slot>, f: ImageFile)
    ensures f in PresentImages(items) <==> Some(f) in items
  {
    if items != [] {
      var init := items[..|items| - 1];
      PresentImagesMembers(init, f);
      assert items == init + [items[|items| - 1]];
    }
  }

  /** As many present images as filled slots. */
  lemma {:induction false} PresentImagesCount(items: seq<Slot>)
    ensures |PresentImages(items)| == |set i | 0 <= i < |items| && items[i].Some?|
  {
    if items != [] {
      var n := |items| - 1;
      PresentImagesCount(items[..n]);
      var before := set i | 0 <= i < n && items[..n][i].Some?;
      var now := set i | 0 <= i < |items| && items[i].Some?;
      if items[n].Some? {
        assert now == before + {n};
      } else {
        assert now == before;
      }
    }
  }

  /** The images each tool sends, in the order they are pushed. */
  function SelectedImages(tool: ToolId, image1: Slot, image2: Slot, items: seq<Slot>): (files: seq<ImageFile>)
  {
    match tool
    case VirtualModelFitting => PresentImages(items)
    case ItemSynthesis => OptionToSeq(image1) + PresentImages(items)
    case _ => OptionToSeq(image1) + OptionToSeq(image2)
  }

  /**
   * The instruction text of each tool. The persona chat tool has no case in
   * the switch and keeps the empty text.
   */
  function Instruction(tool: ToolId, prompt: string, option: string): (r: string)
    ensures tool == MagicEditor ==> r == "Edit: " + prompt
    ensures tool == AdPosterMaker ==> r == "Ad poster: " + prompt
    ensures tool == PersonaChat <==> r == ""
  {
    match tool
    case VirtualModelFitting => "AI " + option + " model with items."
    case ItemSynthesis => "Synthesize items naturally."
    case MagicEditor => "Edit: " + prompt
    case SketchToWebtoon => "Webtoon style"
    case IDPhotoMaker => "ID photo " + option + "."
    case FaceHairChanger => "New hairstyle"
    case FutureBaby => "Predict baby " + option + "."
    case AdPosterMaker => "Ad poster: " + prompt
    case TimeTraveler => "Travel to " + option + "."
    case Character360 => "360 view"
    case PersonaChat => ""
  }

  /** Only the editor and the poster maker read the prompt; only four tools read the option. */
  lemma InstructionInputs(tool: ToolId, prompt: string, prompt': string, option: string, option': string)
    ensures tool != MagicEditor && tool != AdPosterMaker
            ==> Instruction(tool, prompt, option) == Instruction(tool, prompt', option)
    ensures tool != VirtualModelFitting && tool != IDPhotoMaker && tool != FutureBaby && tool != TimeTraveler
            ==> Instruction(tool, prompt, option) == Instruction(tool, prompt, option')
  {
  }

  /** The parts as sent: the selected images, then the instruction. */
  function RequestParts(tool: ToolId, image1: Slot, image2: Slot, items: seq<Slot>, prompt: string, option: string): (parts: seq<Part>)
  {
    ToParts(SelectedImages(tool, image1, image2, items)) + [Text(Instruction(tool, prompt, option))]
  }

  /** The instruction is the last part and every part before it is an image. */
  lemma InstructionLast(tool: ToolId, image1: Slot, image2: Slot, items: seq<Slot>, prompt: string, option: string)
    ensures var parts := RequestParts(tool, image1, image2, items, prompt, option);
      |parts| >= 1 && parts[|parts| - 1] == Text(Instruction(tool, prompt, option))
      && forall i :: 0 <= i < |parts| - 1 ==> parts[i].InlineImage?
  {
  }

  /** Which file each image part comes from, per tool. */
  lemma ImageOrder(tool: ToolId, image1: Slot, image2: Slot, items: seq<Slot>, prompt: string, option: string)
    ensures var parts := RequestParts(tool, image1, image2, items, prompt, option);
      var sources := seq(|parts| - 1, i requires 0 <= i < |parts| - 1 => parts[i].source);
      && (tool == VirtualModelFitting ==> sources == PresentImages(items))
      && (tool == ItemSynthesis ==> sources == OptionToSeq(image1) + PresentImages(items))
      && (tool != VirtualModelFitting && tool != ItemSynthesis ==> sources == OptionToSeq(image1) + OptionToSeq(image2))
  {
  }

  /** `for (const file of itemImages) if (file) parts.push(await fileToPart(file))` */
  method PushItemImages(parts: seq<Part>, items: seq<Slot>) returns (out: seq<Part>)
    ensures out == parts + ToParts(PresentImages(items))
  {
    out := parts;
    var i := 0;
    while i < |items|
      invariant 0 <= i <= |items|
      invariant out == parts + ToParts(PresentImages(items[..i]))
    {
      PresentImagesStep(items, i);
      ToPartsAppend(PresentImages(items[..i]), OptionToSeq(items[i]));
      if items[i].Some? {
        out := out + [FileToPart(items[i].value)];
      }
      i := i + 1;
    }
    assert items[..i] == items;
  }

  /** One more slot of the loop adds its file, if any, at the end. */
  lemma PresentImagesStep(items: seq<Slot>, i: nat)
    requires i < |items|
    ensures PresentImages(items[..i + 1]) == PresentImages(items[..i]) + OptionToSeq(items[i])
  {
    assert items[..i + 1][..i] == items[..i];
  }

  /** `if (image) parts.push(await fileToPart(image))` */
  method PushIfPresent(parts: seq<Part>, image: Slot) returns (out: seq<Part>)
    ensures out == parts + ToParts(OptionToSeq(image))
  {
    out := parts;
    if image.Some? {
      out := out + [FileToPart(image.value)];
    }
  }

  /** The part list as the generate action builds it, push by push. */
  method AssembleParts(tool: ToolId, image1: Slot, image2: Slot, items: seq<Slot>, prompt: string, option: string)
    returns (parts: seq<Part>)
    ensures parts == RequestParts(tool, image1, image2, items, prompt, option)
  {
    var images: seq<Part> := [];
    if tool == VirtualModelFitting {
      images := PushItemImages(images, items);
    } else if tool == ItemSynthesis {
      images := PushIfPresent(images, image1);
      images := PushItemImages(images, items);
      ToPartsAppend(OptionToSeq(image1), PresentImages(items));
    } else {
      images := PushIfPresent(images, image1);
      images := PushIfPresent(images, image2);
      ToPartsAppend(OptionToSeq(image1), OptionToSeq(image2));
    }
    assert images == ToParts(SelectedImages(tool, image1, image2, items));
    parts := images + [Text(Instruction(tool, prompt, option))];
  }

  /** The model the tier selects. */
  function ModelFor(tier: Tier): (model: string)
    ensures model == ProModel <==> tier == Pro
    ensures model == FlashModel <==> tier != Pro
  {
    if tier == Pro then ProModel else FlashModel
  }

  /** Always portrait 3:4; the pro model also asks for the 1K size. */
  function ConfigFor(model: string): (c: ImageConfig)
    ensures c.aspectRatio == "3:4"
    ensures c.imageSize == Some("1K") <==> model == ProModel
    ensures c.imageSize == None <==> model != ProModel
  {
    ImageConfig("3:4", if model == ProModel then Some("1K") else None)
  }

  /** The request for a key, a tier and the tool inputs. */
  function BuildRequest(apiKey: string, tier: Tier, tool: ToolId, image1: Slot, image2: Slot,
                        items: seq<Slot>, prompt: string, option: string): (r: GenerateRequest)
    ensures r.apiKey == apiKey
    ensures r.parts == RequestParts(tool, image1, image2, items, prompt, option)
    ensures tier == Pro ==> r.model == ProModel && r.config == ImageConfig("3:4", Some("1K"))
    ensures tier != Pro ==> r.model == FlashModel && r.config == ImageConfig("3:4", None)
  {
    var model := ModelFor(tier);
    GenerateRequest(apiKey, model, RequestParts(tool, image1, image2, items, prompt, option), ConfigFor(model))
  }
}
