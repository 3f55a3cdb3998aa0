/**
 * The tutor session of components/tutor/tutor-interface.tsx: the shared
 * annotation store both producers write to, and the current page both the
 * chat and the viewer navigate.
 */
module Tutor {
  import opened Annotations

  class TutorSession {
    var currentPage: nat
    var annotations: seq<Annotation>

    /** A session opens on page 1 with no annotations. */
    constructor ()
      ensures currentPage == 1 && annotations == []
    {
      currentPage := 1;
      annotations := [];
    }

    /** `handleAnnotationAdd`: the batch goes after what is there, in its own order; nothing is deduplicated. */
    method AddAnnotations(batch: seq<Annotation>)
      modifies this
      ensures annotations == old(annotations) + batch
      ensures currentPage == old(currentPage)
    {
      annotations := annotations + batch;
    }

    /** `handleAnnotationsChange`: the whole collection is replaced. */
    method ChangeAnnotations(updated: seq<Annotation>)
      modifies this
      ensures annotations == updated
      ensures currentPage == old(currentPage)
    {
      annotations := updated;
    }

    /** `setCurrentPage`, the `onPageChange` callback of both the chat and the viewer. */
    method SetPage(page: nat)
      modifies this
      ensures currentPage == page
      ensures annotations == old(annotations)
    {
      currentPage := page;
    }
  }

  /** How many annotations carry `id`. */
  function IdCount(annotations: seq<Annotation>, id: string): (n: nat)
    ensures n <= |annotations|
    ensures n == 0 <==> forall i :: 0 <= i < |annotations| ==> annotations[i].id != id
  {
    if annotations == [] then 0
    else (if annotations[0].id == id then 1 else 0) + IdCount(annotations[1..], id)
  }

  /** Adding is concatenation, so an id present on both sides is then held twice. */
  lemma {:induction false} IdCountAppend(a: seq<Annotation>, b: seq<Annotation>, id: string)
    ensures IdCount(a + b, id) == IdCount(a, id) + IdCount(b, id)
  {
    if a == [] {
      assert a + b == b;
    } else {
      assert (a + b)[0] == a[0];
      assert (a + b)[1..] == a[1..] + b;
      IdCountAppend(a[1..], b, id);
    }
  }
}
