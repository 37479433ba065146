/** The lead capture and qualification view (src/pages/LeadCapture.tsx): the
    captured leads of the signed-in user, the marketing forms last generated
    and a busy flag. The record store, the generative provider, the clock and
    the random suffix are outside the model: what they answer is a parameter. */
module LeadCapture {
  import opened Outcomes
  import opened Decimal
  import LeadGenerator

  /** The signed-in user; only the id is used by this view. */
  datatype User = User(id: string)

  // ---------------------------------------------------------------------------
  // Captured leads and the load transform

  /** A `capturedLeads` record as the store lists it. The id, name, email and
      creation time are passed through as they are; the other fields may be
      absent. */
  datatype StoredLead = StoredLead(
    id: string, name: string, email: string,
    phone: Option<string>, propertyType: Option<string>, timeline: Option<string>,
    budget: Option<string>, location: Option<string>, motivation: Option<string>,
    source: Option<string>, score: Option<int>, status: Option<string>,
    createdAt: string, aiInsights: Option<string>, nextAction: Option<string>)

  /** A lead as the view holds it. */
  datatype CapturedLead = CapturedLead(
    id: string, name: string, email: string, phone: string, propertyType: string,
    timeline: string, budget: string, location: string, motivation: string,
    source: string, score: int, status: string, capturedAt: string,
    aiInsights: string, nextAction: string)

  /** JavaScript's `v || fallback` on a string field treats an absent and an
      empty value alike. */
  predicate Missing(v: Option<string>)
  {
    v.None? || v.value == ""
  }

  function OrElse(v: Option<string>, fallback: string): string
  {
    if Missing(v) then fallback else v.value
  }

  /** `out` is the stored value when there is one, and `fallback` otherwise. */
  ghost predicate Defaulted(v: Option<string>, fallback: string, out: string)
  {
    (Missing(v) ==> out == fallback) && (!Missing(v) ==> out == v.value)
  }

  /** What every lead the view holds satisfies: it names a source and a status. */
  predicate WellFormed(l: CapturedLead)
  {
    l.source != "" && l.status != ""
  }

  predicate AllWellFormed(leads: seq<CapturedLead>)
  {
    forall i :: 0 <= i < |leads| ==> WellFormed(leads[i])
  }

  /** One step of the load transform: defaults fill what the store left out. */
  function ToCapturedLead(rec: StoredLead): (l: CapturedLead)
    ensures l.id == rec.id && l.name == rec.name && l.email == rec.email
    ensures l.capturedAt == rec.createdAt
    ensures Defaulted(rec.phone, "", l.phone) && Defaulted(rec.propertyType, "", l.propertyType)
    ensures Defaulted(rec.timeline, "", l.timeline) && Defaulted(rec.budget, "", l.budget)
    ensures Defaulted(rec.location, "", l.location) && Defaulted(rec.motivation, "", l.motivation)
    ensures Defaulted(rec.aiInsights, "", l.aiInsights) && Defaulted(rec.nextAction, "", l.nextAction)
    ensures Defaulted(rec.source, "Direct", l.source)
    ensures Defaulted(rec.status, "new", l.status)
    ensures l.score == (if rec.score.Some? then rec.score.value else 0)
    ensures WellFormed(l)
  {
    CapturedLead(
      rec.id, rec.name, rec.email,
      OrElse(rec.phone, ""), OrElse(rec.propertyType, ""), OrElse(rec.timeline, ""),
      OrElse(rec.budget, ""), OrElse(rec.location, ""), OrElse(rec.motivation, ""),
      OrElse(rec.source, "Direct"),
      match rec.score case Some(n) => n case None => 0,
      OrElse(rec.status, "new"),
      rec.createdAt,
      OrElse(rec.aiInsights, ""), OrElse(rec.nextAction, ""))
  }

  /** The `.map` of the load: one lead per record, in the store's order. */
  function LoadTransform(records: seq<StoredLead>): (leads: seq<CapturedLead>)
    ensures |leads| == |records|
    ensures forall i :: 0 <= i < |records| ==> leads[i] == ToCapturedLead(records[i])
    ensures AllWellFormed(leads)
  {
    seq(|records|, i requires 0 <= i < |records| => ToCapturedLead(records[i]))
  }

  /** Loading a concatenation loads each part in turn. */
  lemma LoadTransformAppend(a: seq<StoredLead>, b: seq<StoredLead>)
    ensures LoadTransform(a + b) == LoadTransform(a) + LoadTransform(b)
  {
    var l, r := LoadTransform(a + b), LoadTransform(a) + LoadTransform(b);
    assert |l| == |r|;
    forall i | 0 <= i < |l|
      ensures l[i] == r[i]
    {
      if i < |a| {
        assert (a + b)[i] == a[i];
      } else {
        assert (a + b)[i] == b[i - |a|];
      }
    }
  }

  // ---------------------------------------------------------------------------
  // High-quality leads

  /** `capturedLeads.filter(l => l.score >= 80)`. */
  function HighQuality(leads: seq<CapturedLead>): (r: seq<CapturedLead>)
    ensures |r| <= |leads|
    ensures forall l :: l in r ==> l in leads && l.score >= 80
    ensures forall l :: l in leads && l.score >= 80 ==> l in r
    ensures forall l :: multiset(r)[l] == if l.score >= 80 then multiset(leads)[l] else 0
    decreases |leads|
  {
    if leads == [] then []
    else
      assert leads == [leads[0]] + leads[1..];
      (if leads[0].score >= 80 then [leads[0]] else []) + HighQuality(leads[1..])
  }

  /** The "High-Quality" badge count. */
  function HighQualityCount(leads: seq<CapturedLead>): nat
  {
    |HighQuality(leads)|
  }

  lemma {:induction false} HighQualityAppend(a: seq<CapturedLead>, b: seq<CapturedLead>)
    ensures HighQuality(a + b) == HighQuality(a) + HighQuality(b)
    decreases |a|
  {
    if a == [] {
      assert a + b == b;
    } else {
      assert (a + b)[1..] == a[1..] + b;
      HighQualityAppend(a[1..], b);
    }
  }

  /** The count never exceeds the total, reaches it exactly when every lead
      scores 80 or more, and is zero exactly when none does. */
  lemma {:induction false} HighQualityCountBounds(leads: seq<CapturedLead>)
    ensures HighQualityCount(leads) <= |leads|
    ensures HighQualityCount(leads) == |leads| <==> forall i :: 0 <= i < |leads| ==> leads[i].score >= 80
    ensures HighQualityCount(leads) == 0 <==> forall i :: 0 <= i < |leads| ==> leads[i].score < 80
    decreases |leads|
  {
    if leads != [] {
      var rest := leads[1..];
      HighQualityCountBounds(rest);
      assert HighQualityCount(leads) == (if leads[0].score >= 80 then 1 else 0) + HighQualityCount(rest);
      assert forall i :: 1 <= i < |leads| ==> leads[i] == rest[i - 1];
      assert forall i :: 0 <= i < |rest| ==> rest[i] == leads[i + 1];
    }
  }

  // ---------------------------------------------------------------------------
  // Status and score presentation

  const GrayStatus := "bg-gray-100 text-gray-800"

  predicate IsKnownStatus(s: string)
  {
    s == "new" || s == "contacted" || s == "qualified" || s == "converted"
  }

  /** `getStatusColor`: one colour per known status, gray for anything else. */
  function StatusColor(status: string): (c: string)
    ensures IsKnownStatus(status) <==> c != GrayStatus
  {
    if status == "new" then "bg-blue-100 text-blue-800"
    else if status == "contacted" then "bg-yellow-100 text-yellow-800"
    else if status == "qualified" then "bg-green-100 text-green-800"
    else if status == "converted" then "bg-purple-100 text-purple-800"
    else GrayStatus
  }

  /** Different known statuses are told apart by their colour. */
  lemma StatusColorDistinct(s: string, t: string)
    requires IsKnownStatus(s) && IsKnownStatus(t) && s != t
    ensures StatusColor(s) != StatusColor(t)
  {
    assert StatusColor(s)[3] == ColorInitial(s) && StatusColor(t)[3] == ColorInitial(t);
  }

  /** The first letter of a known status's colour name. */
  function ColorInitial(s: string): char
  {
    if s == "new" then 'b' else if s == "contacted" then 'y' else if s == "qualified" then 'g' else 'p'
  }

  /** The score badge of the qualification tab, written inline; it is the
      generator view's `getScoreBadge`. */
  function QualificationBadge(score: int): (c: string)
    ensures c == LeadGenerator.ScoreBadge(score)
  {
    if score >= 80 then "bg-green-100 text-green-800"
    else if score >= 60 then "bg-yellow-100 text-yellow-800"
    else "bg-red-100 text-red-800"
  }

  /** The qualify button of a lead is enabled until the lead is qualified. */
  predicate CanQualify(l: CapturedLead)
  {
    l.status != "qualified"
  }

  // ---------------------------------------------------------------------------
  // Qualification

  /** The object the generative provider returns for a qualification;
      `opportunities` may be absent. */
  datatype Qualification = Qualification(
    qualificationScore: int, buyerReadiness: string, recommendedActions: seq<string>,
    riskFactors: seq<string>, opportunities: Option<seq<string>>, nextSteps: string)

  /** The partial record written back to the store. */
  datatype LeadUpdate = LeadUpdate(
    id: string, score: int, aiInsights: string, nextAction: string,
    status: string, updatedAt: string)

  /** `Array.prototype.join`. */
  function Join(parts: seq<string>, sep: string): string
    decreases |parts|
  {
    if |parts| == 0 then ""
    else if |parts| == 1 then parts[0]
    else parts[0] + sep + Join(parts[1..], sep)
  }

  function TotalLength(parts: seq<string>): nat
    decreases |parts|
  {
    if parts == [] then 0 else |parts[0]| + TotalLength(parts[1..])
  }

  /** The length of a join: the parts' total plus one separator per gap. */
  lemma {:induction false} JoinLength(parts: seq<string>, sep: string)
    requires |parts| > 0
    ensures |Join(parts, sep)| == TotalLength(parts) + (|parts| - 1) * |sep|
    decreases |parts|
  {
    if |parts| > 1 {
      JoinLength(parts[1..], sep);
    }
  }

  /** Joining two non-empty lists is joining each and putting one separator
      between them: the parts appear in order, each once. */
  lemma {:induction false} JoinAppend(a: seq<string>, b: seq<string>, sep: string)
    requires |a| > 0 && |b| > 0
    ensures Join(a + b, sep) == Join(a, sep) + sep + Join(b, sep)
    decreases |a|
  {
    if |a| == 1 {
      assert (a + b)[1..] == b;
    } else {
      assert (a + b)[1..] == a[1..] + b;
      JoinAppend(a[1..], b, sep);
    }
  }

  /** The insights text of a qualified lead: the buyer readiness, then the
      opportunities joined by spaces. */
  function QualifiedInsights(buyerReadiness: string, opportunities: seq<string>): (s: string)
    ensures |s| == 19 + |buyerReadiness| + |Join(opportunities, " ")|
    ensures s[..17] == "Buyer Readiness: "
    ensures s[17..17 + |buyerReadiness|] == buyerReadiness
    ensures s[17 + |buyerReadiness|..] == ". " + Join(opportunities, " ")
  {
    "Buyer Readiness: " + buyerReadiness + ". " + Join(opportunities, " ")
  }

  /** `.find(l => l.id === leadId)`. */
  function Find(leads: seq<CapturedLead>, id: string): (r: Option<CapturedLead>)
    ensures r.None? <==> forall i :: 0 <= i < |leads| ==> leads[i].id != id
    ensures r.Some? ==> r.value in leads && r.value.id == id
    decreases |leads|
  {
    if leads == [] then None
    else if leads[0].id == id then Some(leads[0])
    else Find(leads[1..], id)
  }

  /** All fields the qualification leaves alone are equal. */
  predicate SameButQualification(a: CapturedLead, b: CapturedLead)
  {
    a.id == b.id && a.name == b.name && a.email == b.email && a.phone == b.phone
    && a.propertyType == b.propertyType && a.timeline == b.timeline && a.budget == b.budget
    && a.location == b.location && a.motivation == b.motivation && a.source == b.source
    && a.capturedAt == b.capturedAt
  }

  /** The local patch of a qualification: every lead with the id takes the new
      score, insights and next action and becomes 'qualified'; every other lead
      is kept as it is, in place. */
  function ApplyQualification(leads: seq<CapturedLead>, id: string, score: int, insights: string, nextAction: string)
    : (r: seq<CapturedLead>)
    ensures |r| == |leads|
    ensures forall i :: 0 <= i < |leads| && leads[i].id != id ==> r[i] == leads[i]
    ensures forall i :: 0 <= i < |leads| && leads[i].id == id ==>
      && r[i].score == score && r[i].aiInsights == insights && r[i].nextAction == nextAction
      && r[i].status == "qualified" && SameButQualification(leads[i], r[i])
    ensures AllWellFormed(leads) ==> AllWellFormed(r)
  {
    var r := seq(|leads|, i requires 0 <= i < |leads| =>
      if leads[i].id == id
      then leads[i].(score := score, aiInsights := insights, nextAction := nextAction, status := "qualified")
      else leads[i]);
    assert forall i :: 0 <= i < |leads| && leads[i].id == id ==> r[i].id == id;
    r
  }

  /** Qualifying an id no lead has changes nothing. */
  lemma QualifyUnknownIdIsNoop(leads: seq<CapturedLead>, id: string, score: int, insights: string, nextAction: string)
    requires Find(leads, id).None?
    ensures ApplyQualification(leads, id, score, insights, nextAction) == leads
  {
    var r := ApplyQualification(leads, id, score, insights, nextAction);
    assert forall i :: 0 <= i < |leads| ==> r[i] == leads[i];
  }

  /** Qualifying again is not refused by the model: the second result simply
      overwrites the first, as if the first had not happened. */
  lemma RequalifyOverwrites(leads: seq<CapturedLead>, id: string,
                            s1: int, i1: string, n1: string, s2: int, i2: string, n2: string)
    ensures ApplyQualification(ApplyQualification(leads, id, s1, i1, n1), id, s2, i2, n2)
         == ApplyQualification(leads, id, s2, i2, n2)
  {
    var once := ApplyQualification(leads, id, s1, i1, n1);
    var l, r := ApplyQualification(once, id, s2, i2, n2), ApplyQualification(leads, id, s2, i2, n2);
    forall k | 0 <= k < |leads|
      ensures l[k] == r[k]
    {
      assert once[k].id == leads[k].id;
    }
  }

  /** After a qualification the qualify button of every patched lead is
      disabled (the only guard against qualifying twice). */
  lemma QualifiedLeadsGated(leads: seq<CapturedLead>, id: string, score: int, insights: string, nextAction: string)
    ensures forall i :: 0 <= i < |leads| && leads[i].id == id ==>
      !CanQualify(ApplyQualification(leads, id, score, insights, nextAction)[i])
  {
  }

  // ---------------------------------------------------------------------------
  // Generated capture forms

  /** A form as the generative provider returns it. */
  datatype Form = Form(
    id: string, name: string, headline: string, description: string,
    leadMagnet: string, targetAudience: string, conversionTips: Option<seq<string>>,
    embedCode: Option<string>, landingPageUrl: Option<string>)

  /** A `leadCaptureForms` record created for a generated form. The list of
      conversion tips is kept as a list (its serialisation is not modelled). */
  datatype FormRecord = FormRecord(
    id: string, userId: string, formName: string, headline: string,
    description: string, leadMagnet: string, targetAudience: string,
    propertyType: string, location: string, priceRange: string,
    embedCode: string, landingPageUrl: string, conversionTips: seq<string>)

  /** The campaign configuration the user fills in. */
  datatype CaptureForm = CaptureForm(
    formName: string, targetAudience: string, propertyType: string,
    location: string, priceRange: string, leadMagnet: string)

  datatype CaptureField = FormName | TargetAudience | PropertyType | Location | PriceRange | LeadMagnet

  function Get(f: CaptureForm, field: CaptureField): string
  {
    match field
    case FormName => f.formName
    case TargetAudience => f.targetAudience
    case PropertyType => f.propertyType
    case Location => f.location
    case PriceRange => f.priceRange
    case LeadMagnet => f.leadMagnet
  }

  /** `{ ...formData, <field>: value }`: only `field` changes. */
  function WithCaptureField(f: CaptureForm, field: CaptureField, value: string): (r: CaptureForm)
    ensures Get(r, field) == value
    ensures forall g :: g != field ==> Get(r, g) == Get(f, g)
  {
    match field
    case FormName => f.(formName := value)
    case TargetAudience => f.(targetAudience := value)
    case PropertyType => f.(propertyType := value)
    case Location => f.(location := value)
    case PriceRange => f.(priceRange := value)
    case LeadMagnet => f.(leadMagnet := value)
  }

  /** The record stored for one generated form: its own texts, the campaign's
      property type, location and price range, and empty defaults for a
      missing embed code, landing page or tip list. */
  function ToFormRecord(form: Form, id: string, userId: string, criteria: CaptureForm): (r: FormRecord)
    ensures r.id == id && r.userId == userId
    ensures r.formName == form.name && r.headline == form.headline && r.description == form.description
    ensures r.leadMagnet == form.leadMagnet && r.targetAudience == form.targetAudience
    ensures r.propertyType == criteria.propertyType && r.location == criteria.location
    ensures r.priceRange == criteria.priceRange
    ensures Defaulted(form.embedCode, "", r.embedCode)
    ensures Defaulted(form.landingPageUrl, "", r.landingPageUrl)
    ensures r.conversionTips == (if form.conversionTips.Some? then form.conversionTips.value else [])
  {
    FormRecord(
      id, userId, form.name, form.headline, form.description, form.leadMagnet,
      form.targetAudience, criteria.propertyType, criteria.location, criteria.priceRange,
      OrElse(form.embedCode, ""), OrElse(form.landingPageUrl, ""),
      match form.conversionTips case Some(t) => t case None => [])
  }

  /** The records created for `forms`, the i-th with the i-th id drawn. */
  function FormRecords(forms: seq<Form>, formId: nat -> string, userId: string, criteria: CaptureForm)
    : (r: seq<FormRecord>)
    ensures |r| == |forms|
    ensures forall i :: 0 <= i < |forms| ==> r[i] == ToFormRecord(forms[i], formId(i), userId, criteria)
  {
    seq(|forms|, i requires 0 <= i < |forms| => ToFormRecord(forms[i], formId(i), userId, criteria))
  }

  /** Every create of the loop resolved. */
  predicate AllCreated(n: nat, failAt: Option<nat>)
  {
    failAt.None? || failAt.value >= n
  }

  /** How many creates the persistence loop issues for `n` forms when the
      create at index `failAt` (if any) rejects: the loop stops there. */
  function CreateCalls(n: nat, failAt: Option<nat>): (k: nat)
    ensures k <= n
    ensures AllCreated(n, failAt) ==> k == n
    ensures failAt.Some? && failAt.value < n ==> k == failAt.value + 1
  {
    if failAt.Some? && failAt.value < n then failAt.value + 1 else n
  }

  /** What the form-generation handler captured when it started: the user
      and the campaign form of that moment. */
  datatype FormsRequest = FormsRequest(user: Option<User>, criteria: CaptureForm)

  /** The form-generation button. */
  function FormsEnabled(isGenerating: bool, targetAudience: string, location: string): (enabled: bool)
    ensures enabled <==> !isGenerating && |targetAudience| > 0 && |location| > 0
  {
    !(isGenerating || targetAudience == "" || location == "")
  }

  // ---------------------------------------------------------------------------
  // Demo lead

  /** A record created directly in the store. */
  datatype NewLead = NewLead(
    id: string, userId: string, name: string, email: string, phone: string,
    propertyType: string, timeline: string, budget: string, location: string,
    motivation: string, source: string, score: int, status: string,
    aiInsights: string, nextAction: string)

  /** The hard-coded demo lead, with the id built from the clock and a random
      suffix. */
  function DemoLead(userId: string, now: nat, randomSuffix: string): (d: NewLead)
    ensures d.userId == userId && d.id == "lead_" + NatToString(now) + "_" + randomSuffix
    ensures d.name == "Sarah Johnson" && d.score == 92 && d.status == "new"
  {
    NewLead(
      "lead_" + NatToString(now) + "_" + randomSuffix, userId,
      "Sarah Johnson", "sarah.johnson@email.com", "(555) 123-4567",
      "Single Family Home", "3-6 months", "$400,000 - $500,000", "Miami, FL",
      "First-time homebuyer, growing family", "Landing Page Form", 92, "new",
      "High-intent buyer with pre-approval likely. Strong motivation due to family growth.",
      "Schedule property viewing call within 24 hours")
  }

  /** The record a store lists for `d` once it has stamped it with its
      creation time. */
  function AsStored(d: NewLead, createdAt: string): StoredLead
  {
    StoredLead(d.id, d.name, d.email, Some(d.phone), Some(d.propertyType), Some(d.timeline),
               Some(d.budget), Some(d.location), Some(d.motivation), Some(d.source),
               Some(d.score), Some(d.status), createdAt, Some(d.aiInsights), Some(d.nextAction))
  }

  /** When the reload lists the demo record first (newest first) followed by
      what was listed before, the view gains exactly one lead, Sarah Johnson
      with score 92 and status 'new', ahead of the previous ones, and the
      high-quality count grows by one. */
  lemma DemoLeadReloaded(userId: string, now: nat, randomSuffix: string, createdAt: string, before: seq<StoredLead>)
    ensures var d := AsStored(DemoLead(userId, now, randomSuffix), createdAt);
      var after := LoadTransform([d] + before);
      && |after| == |LoadTransform(before)| + 1
      && after[0].name == "Sarah Johnson" && after[0].score == 92 && after[0].status == "new"
      && after[0].source == "Landing Page Form" && after[0].capturedAt == createdAt
      && after[1..] == LoadTransform(before)
      && HighQualityCount(after) == HighQualityCount(LoadTransform(before)) + 1
  {
    var d := AsStored(DemoLead(userId, now, randomSuffix), createdAt);
    LoadTransformAppend([d], before);
    var first := LoadTransform([d]);
    assert first == [ToCapturedLead(d)];
    HighQualityAppend(first, LoadTransform(before));
    assert HighQuality(first) == [ToCapturedLead(d)];
  }

  // ---------------------------------------------------------------------------
  // View state

  class LeadCaptureView {
    var user: Option<User>
    var loading: bool
    var capturedLeads: seq<CapturedLead>
    var formData: CaptureForm
    var generatedForms: seq<Form>
    var isGenerating: bool

    /** Every lead in view names a source and a status. */
    ghost predicate Valid()
      reads this
    {
      AllWellFormed(capturedLeads)
    }

    constructor ()
      ensures Valid()
      ensures user == None && loading && capturedLeads == [] && generatedForms == [] && !isGenerating
      ensures formData == CaptureForm("", "", "", "", "", "")
    {
      user := None;
      loading := true;
      capturedLeads := [];
      formData := CaptureForm("", "", "", "", "", "");
      generatedForms := [];
      isGenerating := false;
    }

    predicate CanGenerateForms()
      reads this
    {
      FormsEnabled(isGenerating, formData.targetAudience, formData.location)
    }

    /** `loadCapturedLeads`: the list is replaced by the transformed records
        when the store answers, and kept when the query rejects. */
    method LoadCapturedLeads(listed: Result<seq<StoredLead>>)
      requires Valid()
      modifies this
      ensures Valid()
      ensures capturedLeads == if listed.Ok? then LoadTransform(listed.value) else old(capturedLeads)
      ensures user == old(user) && loading == old(loading) && formData == old(formData)
      ensures generatedForms == old(generatedForms) && isGenerating == old(isGenerating)
    {
      if listed.Ok? {
        capturedLeads := LoadTransform(listed.value);
      }
    }

    /** The session callback: records the user and the loading flag, and
        loads the user's leads when there is a user. */
    method OnAuthStateChanged(newUser: Option<User>, isLoading: bool, listed: Result<seq<StoredLead>>)
      requires Valid()
      modifies this
      ensures Valid()
      ensures user == newUser && loading == isLoading
      ensures capturedLeads ==
        if newUser.Some? && listed.Ok? then LoadTransform(listed.value) else old(capturedLeads)
      ensures formData == old(formData) && generatedForms == old(generatedForms)
      ensures isGenerating == old(isGenerating)
    {
      user := newUser;
      loading := isLoading;
      if newUser.Some? {
        LoadCapturedLeads(listed);
      }
    }

    /** One of the campaign inputs. */
    method SetFormField(field: CaptureField, value: string)
      requires Valid()
      modifies this
      ensures Valid()
      ensures formData == WithCaptureField(old(formData), field, value)
      ensures user == old(user) && loading == old(loading) && capturedLeads == old(capturedLeads)
      ensures generatedForms == old(generatedForms) && isGenerating == old(isGenerating)
    {
      formData := WithCaptureField(formData, field, value);
    }

    /** `handleGenerateForms` up to its call into the provider: the busy flag
        is set and the button is disabled. The handler's closure keeps the
        user and the campaign form of the moment it was started; they are
        returned in `request` and used, not the view's later state, once the
        provider settles. */
    method StartGenerateForms() returns (request: FormsRequest)
      requires Valid()
      modifies this
      ensures Valid() && isGenerating && !CanGenerateForms()
      ensures request == FormsRequest(user, formData)
      ensures user == old(user) && loading == old(loading) && capturedLeads == old(capturedLeads)
      ensures formData == old(formData) && generatedForms == old(generatedForms)
    {
      isGenerating := true;
      request := FormsRequest(user, formData);
    }

    /** `handleGenerateForms` after the provider settles with `generated`,
        for the user and campaign form captured in `request`. With a user,
        one create is issued per form, in order, the i-th with id
        `formId(i)`; the create at index `failAt` (if any) rejects, which ends
        the loop and skips the state update. The forms are shown when the
        provider answered and every create resolved (or there was no user).
        `requested` lists the creates issued. The busy flag is cleared on
        every path. */
    method FinishGenerateForms(request: FormsRequest, generated: Result<seq<Form>>, formId: nat -> string, failAt: Option<nat>)
      returns (requested: seq<FormRecord>)
      requires Valid()
      modifies this
      ensures Valid() && !isGenerating
      ensures generated.Failed? ==> requested == [] && generatedForms == old(generatedForms)
      ensures generated.Ok? && request.user.None? ==> requested == [] && generatedForms == generated.value
      ensures generated.Ok? && request.user.Some? ==>
        && requested == FormRecords(generated.value[..CreateCalls(|generated.value|, failAt)],
                                    formId, request.user.value.id, request.criteria)
        && generatedForms == if AllCreated(|generated.value|, failAt) then generated.value else old(generatedForms)
      ensures user == old(user) && loading == old(loading) && capturedLeads == old(capturedLeads)
      ensures formData == old(formData)
    {
      requested := [];
      if generated.Ok? {
        var forms := generated.value;
        var saved := true;
        if request.user.Some? {
          var uid, criteria := request.user.value.id, request.criteria;
          var i := 0;
          while saved && i < |forms|
            invariant 0 <= i <= |forms|
            invariant saved <==> AllCreated(i, failAt)
            invariant !saved ==> failAt == Some(i - 1)
            invariant requested == FormRecords(forms[..i], formId, uid, criteria)
          {
            requested := requested + [ToFormRecord(forms[i], formId(i), uid, criteria)];
            assert forms[..i + 1] == forms[..i] + [forms[i]];
            if failAt == Some(i) {
              saved := false;
            }
            i := i + 1;
          }
          assert saved ==> forms[..i] == forms;
        }
        if saved {
          generatedForms := forms;
        }
      }
      isGenerating := false;
    }

    /** `handleQualifyLead`. Nothing happens without a lead with that id or
        without a user. Otherwise, once the provider answers with a result that
        has opportunities (`join` on an absent list throws), the update in
        `written` is sent to the store, and only when that write resolves
        (`updateOk`) is the same patch applied locally. */
    method HandleQualifyLead(leadId: string, qualification: Result<Qualification>, updatedAt: string, updateOk: bool)
      returns (written: Option<LeadUpdate>)
      requires Valid()
      modifies this
      ensures Valid()
      ensures written.Some? <==>
        Find(old(capturedLeads), leadId).Some? && user.Some?
        && qualification.Ok? && qualification.value.opportunities.Some?
      ensures written.Some? ==>
        var q := qualification.value;
        written.value == LeadUpdate(leadId, q.qualificationScore,
                                    QualifiedInsights(q.buyerReadiness, q.opportunities.value),
                                    q.nextSteps, "qualified", updatedAt)
      ensures capturedLeads ==
        if written.Some? && updateOk
        then ApplyQualification(old(capturedLeads), leadId, written.value.score,
                                written.value.aiInsights, written.value.nextAction)
        else old(capturedLeads)
      ensures user == old(user) && loading == old(loading) && formData == old(formData)
      ensures generatedForms == old(generatedForms) && isGenerating == old(isGenerating)
    {
      written := None;
      var lead := Find(capturedLeads, leadId);
      if lead.None? || user.None? {
        return;
      }
      if qualification.Failed? || qualification.value.opportunities.None? {
        return;
      }
      var q := qualification.value;
      var insights := QualifiedInsights(q.buyerReadiness, q.opportunities.value);
      written := Some(LeadUpdate(leadId, q.qualificationScore, insights, q.nextSteps, "qualified", updatedAt));
      if updateOk {
        capturedLeads := ApplyQualification(capturedLeads, leadId, q.qualificationScore, insights, q.nextSteps);
      }
    }

    /** `addDemoLead`: nothing without a user; otherwise the demo record in
        `written` is created, and only when the create resolves (`createOk`)
        is the list reloaded from the store's answer `listed`. */
    method AddDemoLead(now: nat, randomSuffix: string, createOk: bool, listed: Result<seq<StoredLead>>)
      returns (written: Option<NewLead>)
      requires Valid()
      modifies this
      ensures Valid()
      ensures user.None? ==> written.None? && capturedLeads == old(capturedLeads)
      ensures user.Some? ==>
        && written == Some(DemoLead(user.value.id, now, randomSuffix))
        && capturedLeads == if createOk && listed.Ok? then LoadTransform(listed.value) else old(capturedLeads)
      ensures user == old(user) && loading == old(loading) && formData == old(formData)
      ensures generatedForms == old(generatedForms) && isGenerating == old(isGenerating)
    {
      if user.None? {
        return None;
      }
      written := Some(DemoLead(user.value.id, now, randomSuffix));
      if createOk {
        LoadCapturedLeads(listed);
      }
    }
  }
}
