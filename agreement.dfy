/**
 * The client's link table and the server's label list agree: every label
 * the server can send has a link entry, so a successful reply is always
 * rendered with its links.
 */
module Agreement {
  import opened Protocol
  import opened Server
  import opened Identify

  /** Every server label is a key of the client's link table. */
  lemma LabelsHaveLinks()
    ensures forall i :: 0 <= i < |ClassNames| ==> ClassNames[i] in HairstyleLinks
  {
  }

  /** The link table has no entry for a label the server cannot send. */
  lemma LinksOnlyForLabels()
    ensures forall shape :: shape in HairstyleLinks ==> shape in ClassNames
  {
  }

  /**
   * A shape reply naming a server label, which is what every 200 reply of
   * the prediction endpoint carries, renders as the result view with that
   * label's link entry; the lookup of the links never fails.
   */
  lemma ServerShapeRenders(resp: Response)
    requires resp.ShapeReply? && resp.facialShape in ClassNames
    ensures Render(resp).ShapeView?
    ensures Render(resp).femaleLink == HairstyleLinks[resp.facialShape].female
    ensures Render(resp).maleLink == HairstyleLinks[resp.facialShape].male
  {
    LabelsHaveLinks();
    var i :| 0 <= i < |ClassNames| && ClassNames[i] == resp.facialShape;
  }
}
