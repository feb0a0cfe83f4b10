/** What the routes take from lib/constants, which is not part of this model:
    the prompt texts and the polish-direction registry, as given values. */
module Registry {
  import opened Text
  import opened Js

  /** A polish direction: its label (`labelText`, since `label` is a Dafny keyword) and description. */
  datatype Direction = Direction(labelText: string, description: string)

  /** A direction's structure template: section names, per-section guidance
      (meant to be index-aligned with the names) and one example. */
  datatype StructureTemplate = StructureTemplate(
    structure: seq<string>,
    structureDesc: seq<string>,
    example: string)

  /** The prompt constants and the two lookups `getDirectionByKey` and
      `getTemplateByKey`, which answer `None` for an unknown key. */
  datatype Catalog = Catalog(
    parsePrompt: string,
    verifyPrompt: string,
    simplePolishPrompt: string,
    inspirePrompt: string,
    simpleInspirePrompt: string,
    polishPrompt: string,
    directionByKey: JsValue -> Option<Direction>,
    templateByKey: JsValue -> Option<StructureTemplate>)
}
