/** The personality engine panel (src/components/PersonalityEngine.tsx):
    the persona buttons, the instruction shown for the selected persona,
    the generate button's enablement, label and styling, and the response
    view. */
module PersonalityEngine {
  import opened Types
  import opened Constants

  /** `!hasMemories || isGenerating`: the button is enabled exactly when
      it reads "Generate Response". */
  function GenerateDisabled(hasMemories: bool, isGenerating: bool): (disabled: bool)
    ensures !disabled <==> GenerateLabel(hasMemories, isGenerating) == "Generate Response"
  {
    !hasMemories || isGenerating
  }

  /** The generate button's label: generation in progress takes precedence
      over missing memories. */
  function GenerateLabel(hasMemories: bool, isGenerating: bool): (caption: string)
    ensures caption == "Processing..." <==> isGenerating
    ensures caption == "Extract Memories First" <==> !isGenerating && !hasMemories
    ensures caption == "Generate Response" <==> !isGenerating && hasMemories
  {
    if isGenerating then "Processing..." else if !hasMemories then "Extract Memories First" else "Generate Response"
  }

  /** The three looks of the generate button. */
  datatype GenerateStyle = UnavailableStyle | BusyStyle | ReadyStyle

  /** The generate button's styling: missing memories take precedence over
      generation in progress. */
  function GenerateStyleOf(hasMemories: bool, isGenerating: bool): (s: GenerateStyle)
    ensures s == UnavailableStyle <==> !hasMemories
    ensures s == BusyStyle <==> hasMemories && isGenerating
  {
    if !hasMemories then UnavailableStyle else if isGenerating then BusyStyle else ReadyStyle
  }

  /** The button is enabled exactly when it has the ready look. */
  lemma GenerateEnabledIffReady(hasMemories: bool, isGenerating: bool)
    ensures !GenerateDisabled(hasMemories, isGenerating) <==> GenerateStyleOf(hasMemories, isGenerating) == ReadyStyle
  {
  }

  /** The two precedences disagree in one case only: generating without
      memories reads "Processing..." but looks unavailable. */
  lemma GenerateLabelStyleDisagree(hasMemories: bool, isGenerating: bool)
    ensures (GenerateLabel(hasMemories, isGenerating) == "Processing..."
             && GenerateStyleOf(hasMemories, isGenerating) == UnavailableStyle)
        <==> isGenerating && !hasMemories
    ensures GenerateLabel(hasMemories, isGenerating) == "Extract Memories First" ==>
      GenerateStyleOf(hasMemories, isGenerating) == UnavailableStyle
  {
  }

  /** One persona button: the persona it selects, its text, and whether it
      is highlighted. */
  datatype PersonaButton = PersonaButton(persona: PersonaType, caption: string, highlighted: bool)

  /** One button per persona, in declaration order, labelled with the
      persona's name and highlighted when it is the selected one. */
  function PersonaButtons(selected: PersonaType): (bs: seq<PersonaButton>)
    ensures |bs| == |AllPersonas()|
    ensures forall i :: 0 <= i < |bs| ==>
      bs[i].persona == AllPersonas()[i] && bs[i].caption == PersonaName(AllPersonas()[i])
      && (bs[i].highlighted <==> AllPersonas()[i] == selected)
  {
    var ps := AllPersonas();
    seq(|ps|, i requires 0 <= i < |ps| => PersonaButton(ps[i], PersonaName(ps[i]), ps[i] == selected))
  }

  /** Exactly one button is highlighted, and it is the selected persona's. */
  lemma ExactlyOneHighlighted(selected: PersonaType)
    ensures exists i :: 0 <= i < |PersonaButtons(selected)| && PersonaButtons(selected)[i].highlighted
    ensures forall i, j ::
      (0 <= i < |PersonaButtons(selected)| && 0 <= j < |PersonaButtons(selected)|
       && PersonaButtons(selected)[i].highlighted && PersonaButtons(selected)[j].highlighted) ==> i == j
    ensures forall i :: 0 <= i < |PersonaButtons(selected)| && PersonaButtons(selected)[i].highlighted ==>
      PersonaButtons(selected)[i].persona == selected
  {
    var bs := PersonaButtons(selected);
    AllPersonasComplete(selected);
    var k :| 0 <= k < |AllPersonas()| && AllPersonas()[k] == selected;
    assert bs[k].highlighted;
  }

  /** Every persona has a button, and clicking it selects that persona,
      whose button is then the highlighted one. */
  lemma EveryPersonaSelectable(selected: PersonaType, p: PersonaType)
    ensures exists i :: (0 <= i < |PersonaButtons(selected)| && PersonaButtons(selected)[i].persona == p
                         && PersonaButtons(p)[i].highlighted)
  {
    AllPersonasComplete(p);
    var k :| 0 <= k < |AllPersonas()| && AllPersonas()[k] == p;
    assert PersonaButtons(selected)[k].persona == p && PersonaButtons(p)[k].highlighted;
  }

  /** The instruction shown under the buttons: the selected persona's
      description, never empty. */
  function Instruction(selected: PersonaType): (text: string)
    ensures |text| > 0
  {
    PersonaDescription(selected)
  }

  /** The output area: the placeholder, or the analysis and the two
      replies under a header naming a persona. */
  datatype ResponseView =
    | NoResponseView
    | ResponseView(analysis: string, standardReply: string, header: string, personaReply: string)

  /** The output area for a response, if there is one. The header names the
      persona selected now, not the one the response was generated for. */
  function ResponseViewOf(response: Option<PersonaResponse>, selected: PersonaType): (v: ResponseView)
    ensures v.ResponseView? <==> response.Some?
    ensures v.ResponseView? ==>
      v.analysis == response.value.analysis && v.standardReply == response.value.standardReply
      && v.personaReply == response.value.personaReply
    ensures v.ResponseView? ==> v.header == PersonaName(selected) + " Output"
  {
    match response
    case None => NoResponseView
    case Some(r) => ResponseView(r.analysis, r.standardReply, PersonaName(selected) + " Output", r.personaReply)
  }

  /** Selecting another persona after generating keeps the texts shown and
      changes only the header, which then names the new persona. */
  lemma HeaderFollowsSelection(r: PersonaResponse, p: PersonaType, q: PersonaType)
    ensures var vp, vq := ResponseViewOf(Some(r), p), ResponseViewOf(Some(r), q);
      vp.analysis == vq.analysis && vp.standardReply == vq.standardReply && vp.personaReply == vq.personaReply
    ensures ResponseViewOf(Some(r), p).header == ResponseViewOf(Some(r), q).header <==> p == q
  {
    var hp, hq := ResponseViewOf(Some(r), p).header, ResponseViewOf(Some(r), q).header;
    if hp == hq {
      assert hp[..|PersonaName(p)|] == PersonaName(p);
      assert hq[..|PersonaName(q)|] == PersonaName(q);
      assert |PersonaName(p)| == |PersonaName(q)|;
      PersonaNameInjective(p, q);
    }
  }
}
