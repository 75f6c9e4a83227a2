/** The list of a user's resumes, each with its newest extraction. */
module ResumeList {
  datatype ResumeInfo = ResumeInfo(id: string, mimeType: string, isActive: bool, uploadedAt: int)

  datatype Extraction = Extraction(resumeId: string, extractedAt: int, promptVersion: string)

  datatype ExtractionState = Extracted(at: int, promptVersion: string) | NotExtracted

  datatype Item = Item(id: string, mimeType: string, isActive: bool, uploadedAt: int, extraction: ExtractionState)

  /** As ORDER BY extracted_at returns them; ties come in any order. */
  predicate OldestFirst(extractions: seq<Extraction>) {
    forall i, j :: 0 <= i < j < |extractions| ==> extractions[i].extractedAt <= extractions[j].extractedAt
  }

  /** new Map(extractions.map((e) => [e.resumeId, e])): a later entry replaces an
      earlier one. */
  function ByResume(extractions: seq<Extraction>): map<string, Extraction> {
    if extractions == [] then map[]
    else
      var last := extractions[|extractions| - 1];
      ByResume(extractions[..|extractions| - 1])[last.resumeId := last]
  }

  function Describe(r: ResumeInfo, byResume: map<string, Extraction>): Item {
    Item(r.id, r.mimeType, r.isActive, r.uploadedAt,
         if r.id in byResume then Extracted(byResume[r.id].extractedAt, byResume[r.id].promptVersion) else NotExtracted)
  }

  function List(resumes: seq<ResumeInfo>, extractions: seq<Extraction>): (items: seq<Item>)
    ensures |items| == |resumes|
  {
    var byResume := ByResume(extractions);
    seq(|resumes|, i requires 0 <= i < |resumes| => Describe(resumes[i], byResume))
  }

  /** The extraction is one of the resume's own, and none of them is newer. */
  predicate NewestOf(e: Extraction, id: string, extractions: seq<Extraction>) {
    && e in extractions && e.resumeId == id
    && forall i :: 0 <= i < |extractions| && extractions[i].resumeId == id ==>
        extractions[i].extractedAt <= e.extractedAt
  }

  lemma {:induction false} IndexHoldsNewest(extractions: seq<Extraction>, id: string)
    requires OldestFirst(extractions)
    ensures id in ByResume(extractions) <==> exists e :: e in extractions && e.resumeId == id
    ensures id in ByResume(extractions) ==> NewestOf(ByResume(extractions)[id], id, extractions)
  {
    if extractions != [] {
      var n := |extractions| - 1;
      var init, last := extractions[..n], extractions[n];
      assert extractions == init + [last];
      IndexHoldsNewest(init, id);
      if last.resumeId == id {
        assert NewestOf(last, id, extractions);
      } else if id in ByResume(init) {
        assert NewestOf(ByResume(init)[id], id, init);
      }
    }
  }

  /** For every history in ascending order, the list keeps the resumes as they come
      and reports for each an extraction that none of the resume's is newer than,
      and `not extracted` exactly when it has none. */
  lemma ListReportsNewest(resumes: seq<ResumeInfo>, extractions: seq<Extraction>, i: nat)
    requires OldestFirst(extractions) && i < |resumes|
    ensures
      var item := List(resumes, extractions)[i];
      && item == Item(resumes[i].id, resumes[i].mimeType, resumes[i].isActive, resumes[i].uploadedAt, item.extraction)
      && (item.extraction == NotExtracted <==> forall e :: e in extractions ==> e.resumeId != item.id)
      && (item.extraction != NotExtracted ==>
            exists e ::
              NewestOf(e, item.id, extractions) && item.extraction == Extracted(e.extractedAt, e.promptVersion))
  {
    var id := resumes[i].id;
    IndexHoldsNewest(extractions, id);
    if id in ByResume(extractions) {
      var e := ByResume(extractions)[id];
      assert NewestOf(e, id, extractions);
    }
  }

  /** The order is needed: in descending order the oldest would be reported. */
  lemma UnorderedHistoryReportsStale(id: string, older: Extraction, newer: Extraction)
    requires older.resumeId == id == newer.resumeId && older.extractedAt < newer.extractedAt
    ensures ByResume([older, newer])[id] == newer && ByResume([newer, older])[id] == older
  {
    assert [older, newer][..1] == [older] && [newer, older][..1] == [newer];
  }
}
