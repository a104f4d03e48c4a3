// Shared value types of the studio: the tool identifiers, chat messages and
// the user-selected image files that the other modules pass around.
module Types {

  datatype Option<+T> = None | Some(value: T)

  /** The fixed set of offered photo-editing tools (types.ts). */
  datatype ToolId =
    | MagicEditor
    | SketchToWebtoon
    | IDPhotoMaker
    | FaceHairChanger
    | FutureBaby
    | AdPosterMaker
    | TimeTraveler
    | VirtualModelFitting
    | ItemSynthesis
    | PersonaChat
    | Character360

  datatype Sender = User | Ai

  /** A chat message; its `Date` timestamp is not modelled. */
  datatype Message = Message(id: string, sender: Sender, text: string)

  /**
   * A file the user picked. Only what the upload path looks at is kept:
   * a name to tell files apart and the decoded pixel dimensions.
   */
  datatype ImageFile = ImageFile(name: string, width: nat, height: nat)

  /** A slot in the item list: a picked file or `null`. */
  type Slot = Option<ImageFile>
}
