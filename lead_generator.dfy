/** The AI lead generator view (src/pages/LeadGenerator.tsx): a criteria form,
    a busy flag and the batch of leads the generative provider last returned.
    The provider itself is outside the model; its answer is a parameter. */
module LeadGenerator {
  import opened Outcomes
  import opened Decimal

  /** One lead as the generative provider returns it: the fields of the
      requested result shape. */
  datatype AiLead = AiLead(
    name: string, email: string, phone: string, propertyType: string,
    location: string, priceRange: string, timeline: string, motivation: string,
    score: int, aiInsights: string, contactPreference: string, leadType: string,
    estimatedValue: string, probability: int)

  /** The object the provider resolves with; `leads` may be absent. */
  datatype LeadsObject = LeadsObject(leads: Option<seq<AiLead>>)

  /** A lead held in view state: the provider's fields plus a client-side id. */
  datatype GeneratedLead = GeneratedLead(
    id: string, name: string, email: string, phone: string, propertyType: string,
    location: string, priceRange: string, timeline: string, motivation: string,
    score: int, aiInsights: string, contactPreference: string, leadType: string,
    estimatedValue: string, probability: int)

  /** The provider's fields of a generated lead (everything but the id). */
  function Fields(g: GeneratedLead): AiLead
  {
    AiLead(g.name, g.email, g.phone, g.propertyType, g.location, g.priceRange,
           g.timeline, g.motivation, g.score, g.aiInsights, g.contactPreference,
           g.leadType, g.estimatedValue, g.probability)
  }

  /** `{ ...lead, id }`: every returned field is kept and the id is added. */
  function Tag(a: AiLead, id: string): (g: GeneratedLead)
    ensures g.id == id && Fields(g) == a
  {
    GeneratedLead(id, a.name, a.email, a.phone, a.propertyType, a.location,
                  a.priceRange, a.timeline, a.motivation, a.score, a.aiInsights,
                  a.contactPreference, a.leadType, a.estimatedValue, a.probability)
  }

  /** A generated lead is exactly its fields tagged with its id. */
  lemma TagFields(g: GeneratedLead)
    ensures Tag(Fields(g), g.id) == g
  {
  }

  // ---------------------------------------------------------------------------
  // Identifiers

  /** The id `lead_<timestamp>_<index>` given to the lead at `index`. */
  function LeadId(now: nat, index: nat): string
  {
    "lead_" + NatToString(now) + "_" + NatToString(index)
  }

  /** The part of `s` after its last '_' (all of `s` when it has none). */
  function AfterLastUnderscore(s: string): (r: string)
    ensures '_' !in r
    decreases |s|
  {
    if s == [] then []
    else if s[|s| - 1] == '_' then []
    else AfterLastUnderscore(s[..|s| - 1]) + [s[|s| - 1]]
  }

  lemma {:induction false} AfterLastUnderscoreOf(p: string, d: string)
    requires '_' !in d
    ensures AfterLastUnderscore(p + "_" + d) == d
    decreases |d|
  {
    var s := p + "_" + d;
    if d != [] {
      var d' := d[..|d| - 1];
      assert s[..|s| - 1] == p + "_" + d';
      AfterLastUnderscoreOf(p, d');
      assert d == d' + [d[|d| - 1]];
    }
  }

  /** The index a lead id encodes: the number after its last '_'. */
  function LeadIndex(id: string): nat
  {
    ParseNat(AfterLastUnderscore(id))
  }

  /** Whatever the clock read, a lead id gives back its index. */
  lemma LeadIndexOfLeadId(now: nat, index: nat)
    ensures LeadIndex(LeadId(now, index)) == index
  {
    var d := NatToString(index);
    assert '_' !in d;
    AfterLastUnderscoreOf("lead_" + NatToString(now), d);
    ParseNatToString(index);
  }

  /** Ids built for different indices differ, whatever the two clock readings. */
  lemma LeadIdsDiffer(t1: nat, i: nat, t2: nat, j: nat)
    requires i != j
    ensures LeadId(t1, i) != LeadId(t2, j)
  {
    LeadIndexOfLeadId(t1, i);
    LeadIndexOfLeadId(t2, j);
  }

  /** The `.map` over the provider's leads: each keeps its fields and gets the
      id built from the clock reading taken for it (`now(i)`: `Date.now()` is
      read once per element) and its index in the batch. */
  function TagLeads(leads: seq<AiLead>, now: nat -> nat): (r: seq<GeneratedLead>)
    ensures |r| == |leads|
    ensures forall i :: 0 <= i < |r| ==> Fields(r[i]) == leads[i]
    ensures forall i :: 0 <= i < |r| ==> r[i].id == LeadId(now(i), i)
  {
    var r := seq(|leads|, i requires 0 <= i < |leads| => Tag(leads[i], LeadId(now(i), i)));
    assert forall i :: 0 <= i < |r| ==> r[i] == Tag(leads[i], LeadId(now(i), i));
    r
  }

  /** The ids of one batch are pairwise distinct and each encodes the lead's
      position, however the clock moved while the batch was tagged. */
  lemma TaggedIdsDistinct(leads: seq<AiLead>, now: nat -> nat)
    ensures forall i :: 0 <= i < |leads| ==> LeadIndex(TagLeads(leads, now)[i].id) == i
    ensures forall i, j :: 0 <= i < j < |leads| ==> TagLeads(leads, now)[i].id != TagLeads(leads, now)[j].id
  {
    var r := TagLeads(leads, now);
    forall i | 0 <= i < |leads|
      ensures LeadIndex(r[i].id) == i
    {
      LeadIndexOfLeadId(now(i), i);
    }
  }

  // ---------------------------------------------------------------------------
  // Score bands

  /** The three score bands the view colours by. */
  datatype Band = High | Medium | Low

  /** The band of a score: 80 and above, 60 up to 80, below 60. */
  function BandOf(score: int): (b: Band)
    ensures b == High <==> score >= 80
    ensures b == Medium <==> 60 <= score < 80
    ensures b == Low <==> score < 60
  {
    if score >= 80 then High else if score >= 60 then Medium else Low
  }

  /** The order of the bands, low to high. */
  function Rank(b: Band): nat
  {
    match b
    case Low => 0
    case Medium => 1
    case High => 2
  }

  /** Higher scores never fall in a lower band. */
  lemma BandMonotone(s: int, t: int)
    requires s <= t
    ensures Rank(BandOf(s)) <= Rank(BandOf(t))
  {
  }

  const GreenText := "text-green-600"
  const YellowText := "text-yellow-600"
  const RedText := "text-red-600"
  const GreenBadge := "bg-green-100 text-green-800"
  const YellowBadge := "bg-yellow-100 text-yellow-800"
  const RedBadge := "bg-red-100 text-red-800"

  /** `getScoreColor`: the text colour of a score. */
  function ScoreColor(score: int): (c: string)
    ensures c == (match BandOf(score) case High => GreenText case Medium => YellowText case Low => RedText)
  {
    if score >= 80 then GreenText
    else if score >= 60 then YellowText
    else RedText
  }

  /** `getScoreBadge`: the badge classes of a score. */
  function ScoreBadge(score: int): (c: string)
    ensures c == (match BandOf(score) case High => GreenBadge case Medium => YellowBadge case Low => RedBadge)
  {
    if score >= 80 then GreenBadge
    else if score >= 60 then YellowBadge
    else RedBadge
  }

  /** Colour and badge always agree: two scores get the same colour exactly
      when they get the same badge, exactly when they are in the same band. */
  lemma ColorAndBadgeAgree(s: int, t: int)
    ensures ScoreColor(s) == ScoreColor(t) <==> BandOf(s) == BandOf(t)
    ensures ScoreBadge(s) == ScoreBadge(t) <==> BandOf(s) == BandOf(t)
  {
    assert GreenText != YellowText && YellowText != RedText && GreenText != RedText by {
      assert GreenText[5] == 'g' && YellowText[5] == 'y' && RedText[5] == 'r';
    }
    assert GreenBadge != YellowBadge && YellowBadge != RedBadge && GreenBadge != RedBadge by {
      assert GreenBadge[3] == 'g' && YellowBadge[3] == 'y' && RedBadge[3] == 'r';
    }
  }

  // ---------------------------------------------------------------------------
  // Form and rendering conditions

  /** The keys of the criteria form. */
  const FormFields: set<string> := {"location", "propertyType", "priceRange", "leadType", "targetCriteria"}

  /** `{ ...prev, [field]: value }`: `field` takes `value`, every other key
      keeps its value, and no key disappears. */
  function WithField(form: map<string, string>, field: string, value: string): (r: map<string, string>)
    ensures r.Keys == form.Keys + {field}
    ensures field in r && r[field] == value
    ensures forall k :: k in form && k != field ==> r[k] == form[k]
  {
    form[field := value]
  }

  /** The generate button: disabled while generating or when the location or
      the lead type is empty (JavaScript's `!s` is true of the empty string). */
  function GenerateEnabled(isGenerating: bool, location: string, leadType: string): (enabled: bool)
    ensures enabled <==> !isGenerating && |location| > 0 && |leadType| > 0
  {
    !(isGenerating || location == "" || leadType == "")
  }

  /** The results list is rendered when there is at least one lead. */
  predicate ResultsShown(leads: seq<GeneratedLead>)
  {
    |leads| > 0
  }

  /** The empty-state card is rendered when there are no leads and no
      generation is in progress. */
  predicate EmptyStateShown(leads: seq<GeneratedLead>, isGenerating: bool)
  {
    |leads| == 0 && !isGenerating
  }

  /** Never both panels; when idle, exactly one; while a first batch is being
      generated, neither. */
  lemma PanelsExclusive(leads: seq<GeneratedLead>, isGenerating: bool)
    ensures !(ResultsShown(leads) && EmptyStateShown(leads, isGenerating))
    ensures !isGenerating ==> (ResultsShown(leads) || EmptyStateShown(leads, isGenerating))
    ensures isGenerating && leads == [] ==> !ResultsShown(leads) && !EmptyStateShown(leads, isGenerating)
  {
  }

  // ---------------------------------------------------------------------------
  // View state

  class LeadGeneratorView {
    var isGenerating: bool
    var generatedLeads: seq<GeneratedLead>
    var formData: map<string, string>

    /** The criteria form keeps all its keys. */
    ghost predicate Valid()
      reads this
    {
      FormFields <= formData.Keys
    }

    constructor ()
      ensures Valid() && !isGenerating && generatedLeads == []
      ensures formData == map k | k in FormFields :: ""
    {
      isGenerating := false;
      generatedLeads := [];
      formData := map k | k in FormFields :: "";
    }

    predicate CanGenerate()
      reads this
      requires Valid()
    {
      GenerateEnabled(isGenerating, formData["location"], formData["leadType"])
    }

    /** `handleInputChange(field, value)`. */
    method HandleInputChange(field: string, value: string)
      requires Valid()
      modifies this
      ensures Valid()
      ensures formData == WithField(old(formData), field, value)
      ensures isGenerating == old(isGenerating) && generatedLeads == old(generatedLeads)
    {
      formData := WithField(formData, field, value);
    }

    /** `generateLeads` up to its call into the provider: the busy flag is set,
        which disables the button and hides the empty state. */
    method StartGenerateLeads()
      requires Valid()
      modifies this
      ensures Valid() && isGenerating
      ensures !CanGenerate() && !EmptyStateShown(generatedLeads, isGenerating)
      ensures generatedLeads == old(generatedLeads) && formData == old(formData)
    {
      isGenerating := true;
    }

    /** `generateLeads` after the provider settles. On a result carrying
        `leads` the list is replaced by the tagged batch; on a rejection, or a
        result without `leads` (whose `.map` throws), the list is kept. The
        busy flag is cleared on every path. */
    method FinishGenerateLeads(generated: Result<LeadsObject>, now: nat -> nat)
      requires Valid()
      modifies this
      ensures Valid() && !isGenerating
      ensures generatedLeads ==
        if generated.Ok? && generated.value.leads.Some?
        then TagLeads(generated.value.leads.value, now)
        else old(generatedLeads)
      ensures formData == old(formData)
    {
      if generated.Ok? && generated.value.leads.Some? {
        generatedLeads := TagLeads(generated.value.leads.value, now);
      }
      isGenerating := false;
    }
  }

  /** The end-to-end case of one lead scored 75: a single card whose badge is
      the middle band's and whose id ends in `_0`. */
  lemma SingleLeadBatch(a: AiLead, now: nat -> nat)
    requires a.score == 75
    ensures |TagLeads([a], now)| == 1
    ensures ScoreBadge(TagLeads([a], now)[0].score) == YellowBadge
    ensures TagLeads([a], now)[0].id == "lead_" + NatToString(now(0)) + "_0"
  {
    assert NatToString(0) == "0";
  }
}
