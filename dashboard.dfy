/**
 * The dashboard: the three counters over the caller's resumes and the
 * template catalog, the create dialog with its guard, and deletion after a
 * confirmation.
 */
module Dashboard {
  import opened Wrappers
  import opened Schema
  import opened JsText
  import TemplateCatalog

  /** Seven days, in milliseconds. */
  const WeekMs: int := 7 * 24 * 60 * 60 * 1000

  lemma WeekIs604800000()
    ensures WeekMs == 604800000
  {
  }

  /** Edited less than a week before `now`; an edit stamped after `now` counts too. */
  predicate IsRecent(now: nat, r: Resume) {
    now - r.lastModified < WeekMs
  }

  /** The "Recent Updates" counter. */
  function RecentCount(now: nat, rs: seq<Resume>): (n: nat)
    ensures n <= |rs|
    ensures n == 0 <==> forall i :: 0 <= i < |rs| ==> !IsRecent(now, rs[i])
  {
    if rs == [] then 0
    else
      var rest := RecentCount(now, rs[1..]);
      assert forall i :: 1 <= i < |rs| ==> rs[i] == rs[1..][i - 1];
      (if IsRecent(now, rs[0]) then 1 else 0) + rest
  }

  /** Counting a concatenation adds the counts of its parts. */
  lemma {:induction false} RecentCountAppend(now: nat, a: seq<Resume>, b: seq<Resume>)
    ensures RecentCount(now, a + b) == RecentCount(now, a) + RecentCount(now, b)
  {
    if a != [] {
      assert (a + b)[0] == a[0] && (a + b)[1..] == a[1..] + b;
      RecentCountAppend(now, a[1..], b);
    } else {
      assert a + b == b;
    }
  }

  /** One resume counts one exactly when it was edited within the week. */
  lemma RecentCountOne(now: nat, x: Resume)
    ensures RecentCount(now, [x]) == if now - x.lastModified < 604800000 then 1 else 0
  {
    assert [x][1..] == [];
  }

  /** As time passes the counter never grows. */
  lemma {:induction false} RecentCountShrinksOverTime(t1: nat, t2: nat, rs: seq<Resume>)
    requires t1 <= t2
    ensures RecentCount(t2, rs) <= RecentCount(t1, rs)
  {
    if rs != [] {
      RecentCountShrinksOverTime(t1, t2, rs[1..]);
    }
  }

  /** The "Free Templates" counter: the templates that are not premium. */
  function FreeCount(ts: seq<Template>): (n: nat)
    ensures n == |ts| - TemplateCatalog.PremiumCount(ts)
  {
    if ts == [] then 0 else (if ts[0].isPremium then 0 else 1) + FreeCount(ts[1..])
  }

  /** Counting a concatenation adds the counts of its parts. */
  lemma FreeCountAppend(a: seq<Template>, b: seq<Template>)
    ensures FreeCount(a + b) == FreeCount(a) + FreeCount(b)
  {
    TemplateCatalog.PremiumCountAppend(a, b);
  }

  /** One template counts one exactly when it is not premium. */
  lemma FreeCountOne(t: Template)
    ensures FreeCount([t]) == if t.isPremium then 0 else 1
  {
    TemplateCatalog.PremiumCountOne(t);
  }

  /** Once the catalog is seeded, three templates are free. */
  lemma SeededCatalogHasThreeFree()
    ensures FreeCount(TemplateCatalog.Catalog) == 3
  {
    TemplateCatalog.CatalogHasOnePremium();
  }

  /** The create guard, shared by the handler and the disabled button:
      a whitespace-only title or no template selected. */
  function CreateBlocked(title: string, templateId: string): (b: bool)
    ensures b <==> AllWhitespace(title) || templateId == ""
  {
    Trim(title) == "" || templateId == ""
  }

  class DashboardPage {
    var showCreateModal: bool
    var newResumeTitle: string
    var selectedTemplate: string
    /** Every `createResume` call issued: the title, as typed, and the template. */
    var createCalls: seq<(string, string)>
    /** Every `deleteResume` call issued. */
    var deleteCalls: seq<ResumeId>

    constructor ()
      ensures !showCreateModal && newResumeTitle == "" && selectedTemplate == ""
      ensures createCalls == [] && deleteCalls == []
    {
      showCreateModal := false;
      newResumeTitle := "";
      selectedTemplate := "";
      createCalls := [];
      deleteCalls := [];
    }

    /** The dialog's Create button is enabled exactly when the handler would
        go ahead. */
    function CreateEnabled(): (b: bool)
      reads this
      ensures b <==> !AllWhitespace(newResumeTitle) && selectedTemplate != ""
    {
      !CreateBlocked(newResumeTitle, selectedTemplate)
    }

    method OpenCreateModal()
      modifies this
      ensures showCreateModal && newResumeTitle == old(newResumeTitle) && selectedTemplate == old(selectedTemplate)
      ensures createCalls == old(createCalls) && deleteCalls == old(deleteCalls)
    {
      showCreateModal := true;
    }

    method EditForm(title: string, templateId: string)
      modifies this
      ensures newResumeTitle == title && selectedTemplate == templateId && showCreateModal == old(showCreateModal)
      ensures createCalls == old(createCalls) && deleteCalls == old(deleteCalls)
    {
      newResumeTitle := title;
      selectedTemplate := templateId;
    }

    /** The first half of `handleCreateResume`: refused, with no call, when
        the guard holds; otherwise the call with the untrimmed title. */
    method BeginCreate() returns (issued: bool)
      modifies this
      ensures issued <==> !CreateBlocked(old(newResumeTitle), old(selectedTemplate))
      ensures issued ==> createCalls == old(createCalls) + [(newResumeTitle, selectedTemplate)]
      ensures !issued ==> createCalls == old(createCalls)
      ensures showCreateModal == old(showCreateModal) && newResumeTitle == old(newResumeTitle)
      ensures selectedTemplate == old(selectedTemplate) && deleteCalls == old(deleteCalls)
    {
      if CreateBlocked(newResumeTitle, selectedTemplate) {
        return false;
      }
      createCalls := createCalls + [(newResumeTitle, selectedTemplate)];
      issued := true;
    }

    /** The second half: success closes the dialog and clears it; failure
        leaves it as it was. */
    method FinishCreate(succeeded: bool)
      modifies this
      ensures succeeded ==> !showCreateModal && newResumeTitle == "" && selectedTemplate == ""
      ensures !succeeded ==> showCreateModal == old(showCreateModal) &&
                             newResumeTitle == old(newResumeTitle) && selectedTemplate == old(selectedTemplate)
      ensures createCalls == old(createCalls) && deleteCalls == old(deleteCalls)
    {
      if succeeded {
        showCreateModal := false;
        newResumeTitle := "";
        selectedTemplate := "";
      }
    }

    /** `handleDeleteResume`: no call unless the user confirms. */
    method HandleDelete(id: ResumeId, confirmed: bool)
      modifies this
      ensures confirmed ==> deleteCalls == old(deleteCalls) + [id]
      ensures !confirmed ==> deleteCalls == old(deleteCalls)
      ensures createCalls == old(createCalls) && showCreateModal == old(showCreateModal)
      ensures newResumeTitle == old(newResumeTitle) && selectedTemplate == old(selectedTemplate)
    {
      if confirmed {
        deleteCalls := deleteCalls + [id];
      }
    }
  }
}
