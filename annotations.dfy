/**
 * The record shared by the AI path and the drawing path (the `Annotation`
 * interface of components/tutor/pdf-viewer.tsx), the raw object a reply
 * directive decodes to, and the page encoding carried in annotation ids.
 */
module Annotations {
  import opened Options
  import opened Text

  datatype Creator = User | Ai

  /**
   * Geometry is in percent of the page box. `kind` is the annotation's `type`
   * ("highlight", "circle", "rectangle", "arrow", or whatever an AI reply
   * supplied); `timestamp` stands for the creation instant.
   */
  datatype Annotation = Annotation(
    id: string,
    kind: string,
    x: real,
    y: real,
    width: real,
    height: real,
    color: string,
    text: Option<string>,
    createdBy: Creator,
    timestamp: int)

  /**
   * The object one `ANNOTATION:` directive decodes to. A field is `None` when
   * the key is absent or null; present values keep their JSON value, so a
   * falsy `0` or `""` is representable.
   */
  datatype RawAnnotation = RawAnnotation(
    kind: Option<string>,
    x: Option<real>,
    y: Option<real>,
    width: Option<real>,
    height: Option<real>,
    color: Option<string>)

  /** The id prefix `page-<page>-` that ties an annotation to one page. */
  function PageTag(page: nat): string {
    "page-" + NatToString(page) + "-"
  }

  predicate OnPage(a: Annotation, page: nat) {
    StartsWith(a.id, PageTag(page))
  }

  /** An id without `page-` anywhere belongs to no page and shows on all of them. */
  predicate IsGlobal(a: Annotation) {
    !Contains(a.id, "page-")
  }
}
