/**
 * The projects editor: the section's entries, the add / update / remove
 * handlers, and a per-project text input for the next technology.
 */
module ProjectsEditor {
  import opened Wrappers
  import opened Schema
  import opened ListEdits

  datatype ProjectField = IdKey | NameKey | DescriptionKey | TechnologiesKey | LinkKey | GithubKey

  /** The entry as a JavaScript object: the value it holds under each key. */
  function Field(p: Project, k: ProjectField): FieldValue {
    match k
    case IdKey => Text(p.id)
    case NameKey => Text(p.name)
    case DescriptionKey => Text(p.description)
    case TechnologiesKey => Texts(p.technologies)
    case LinkKey => OptionalText(p.link)
    case GithubKey => OptionalText(p.github)
  }

  /** Two entries holding the same value under every key are the same entry. */
  lemma FieldsDetermineEntry(a: Project, b: Project)
    requires forall k :: Field(a, k) == Field(b, k)
    ensures a == b
  {
    assert Field(a, IdKey) == Field(b, IdKey) && Field(a, NameKey) == Field(b, NameKey);
    assert Field(a, DescriptionKey) == Field(b, DescriptionKey) && Field(a, TechnologiesKey) == Field(b, TechnologiesKey);
    assert Field(a, LinkKey) == Field(b, LinkKey) && Field(a, GithubKey) == Field(b, GithubKey);
  }

  /** The edits the form's text inputs make; technologies change only
      through their own add and remove buttons. */
  datatype ProjectEdit =
    | SetName(name: string)
    | SetDescription(description: string)
    | SetLink(link: string)
    | SetGithub(github: string)
  {
    function Key(): ProjectField {
      match this
      case SetName(_) => NameKey
      case SetDescription(_) => DescriptionKey
      case SetLink(_) => LinkKey
      case SetGithub(_) => GithubKey
    }

    function Value(): string {
      match this
      case SetName(v) => v
      case SetDescription(v) => v
      case SetLink(v) => v
      case SetGithub(v) => v
    }
  }

  /** `{...p, [field]: value}`: the named key gets the string and every other
      key keeps its value. */
  function Apply(p: Project, edit: ProjectEdit): (r: Project)
    ensures Field(r, edit.Key()) == Text(edit.Value())
    ensures forall k :: k != edit.Key() ==> Field(r, k) == Field(p, k)
  {
    match edit
    case SetName(v) => p.(name := v)
    case SetDescription(v) => p.(description := v)
    case SetLink(v) => p.(link := Some(v))
    case SetGithub(v) => p.(github := Some(v))
  }

  function IdOf(p: Project): string { p.id }

  /** The entry `addProject` appends: the fresh id, no technologies, and ""
      under every text key, the optional links included. */
  function Blank(id: string): (p: Project)
    ensures Field(p, IdKey) == Text(id) && Field(p, TechnologiesKey) == Texts([])
    ensures forall k :: k != IdKey && k != TechnologiesKey ==> Field(p, k) == Text("")
  {
    Project(id, "", "", [], Some(""), Some(""))
  }

  function Updated(projects: seq<Project>, id: string, edit: ProjectEdit): seq<Project> {
    MapWhere(projects, IdOf, id, (p: Project) => Apply(p, edit))
  }

  function Removed(projects: seq<Project>, id: string): seq<Project> {
    RemoveWhere(projects, IdOf, id)
  }

  function WithTechnology(projects: seq<Project>, id: string, tech: string): seq<Project> {
    MapWhere(projects, IdOf, id, (p: Project) => p.(technologies := p.technologies + [tech]))
  }

  function WithoutTechnology(projects: seq<Project>, id: string, index: int): seq<Project> {
    MapWhere(projects, IdOf, id, (p: Project) => p.(technologies := RemoveAt(p.technologies, index)))
  }

  /** `updateProject` keeps the length, leaves every entry with another id
      identical, and changes only the named key of the entries with the id. */
  lemma UpdateChangesOnlyNamedField(projects: seq<Project>, id: string, edit: ProjectEdit)
    ensures |Updated(projects, id, edit)| == |projects|
    ensures forall i :: 0 <= i < |projects| && projects[i].id != id ==> Updated(projects, id, edit)[i] == projects[i]
    ensures forall i, k :: 0 <= i < |projects| && projects[i].id == id && k != edit.Key() ==>
              Field(Updated(projects, id, edit)[i], k) == Field(projects[i], k)
    ensures forall i :: 0 <= i < |projects| && projects[i].id == id ==>
              Field(Updated(projects, id, edit)[i], edit.Key()) == Text(edit.Value())
  {
  }

  /** Removing a technology touches only that list, and only under that id. */
  lemma WithoutTechnologyKeepsOtherFields(projects: seq<Project>, id: string, index: int)
    ensures |WithoutTechnology(projects, id, index)| == |projects|
    ensures forall i, k :: 0 <= i < |projects| && k != TechnologiesKey ==>
              Field(WithoutTechnology(projects, id, index)[i], k) == Field(projects[i], k)
    ensures forall i :: 0 <= i < |projects| && projects[i].id != id ==>
              WithoutTechnology(projects, id, index)[i] == projects[i]
  {
  }

  /** Removing technology `n` right after adding one to projects that each had
      `n` technologies restores the list. */
  lemma RemoveAddedTechnology(projects: seq<Project>, id: string, tech: string, n: nat)
    requires forall i :: 0 <= i < |projects| && projects[i].id == id ==> |projects[i].technologies| == n
    ensures WithoutTechnology(WithTechnology(projects, id, tech), id, n) == projects
  {
    var w := WithTechnology(projects, id, tech);
    var r := WithoutTechnology(w, id, n);
    forall i | 0 <= i < |projects|
      ensures r[i] == projects[i]
    {
      if projects[i].id == id {
        assert (projects[i].technologies + [tech])[..n] == projects[i].technologies;
      }
    }
  }

  /** Removing the entry just added with a fresh id restores the list. */
  lemma AddThenRemove(projects: seq<Project>, id: string)
    requires forall i :: 0 <= i < |projects| ==> projects[i].id != id
    ensures Removed(projects + [Blank(id)], id) == projects
  {
    RemoveAppended(projects, Blank(id), IdOf);
    RemoveAbsent(projects, IdOf, id);
  }

  class ProjectsForm {
    var projects: seq<Project>
    /** `newTechInputs`: the text typed for each project's next technology. */
    var inputs: map<string, string>
    /** The argument of every `onSave` call, oldest first. */
    var saved: seq<seq<Project>>

    constructor (data: seq<Project>)
      ensures projects == data && inputs == map[] && saved == []
    {
      projects := data;
      inputs := map[];
      saved := [];
    }

    /** A new `data` prop replaces the local list; nothing is saved. */
    method ReceiveData(data: seq<Project>)
      modifies this
      ensures projects == data && inputs == old(inputs) && saved == old(saved)
    {
      projects := data;
    }

    method AddProject(freshId: string)
      modifies this
      ensures projects == old(projects) + [Blank(freshId)] && saved == old(saved) + [projects]
      ensures inputs == old(inputs)
    {
      var updated := projects + [Blank(freshId)];
      projects := updated;
      saved := saved + [updated];
    }

    method UpdateProject(id: string, edit: ProjectEdit)
      modifies this
      ensures projects == Updated(old(projects), id, edit) && saved == old(saved) + [projects]
      ensures inputs == old(inputs)
    {
      var updated := Updated(projects, id, edit);
      projects := updated;
      saved := saved + [updated];
    }

    method RemoveProject(id: string)
      modifies this
      ensures projects == Removed(old(projects), id) && saved == old(saved) + [projects]
      ensures inputs == old(inputs)
    {
      var updated := Removed(projects, id);
      projects := updated;
      saved := saved + [updated];
    }

    /** Typing in a project's technology input; nothing is saved. */
    method SetInput(id: string, value: string)
      modifies this
      ensures inputs == old(inputs)[id := value] && projects == old(projects) && saved == old(saved)
    {
      inputs := inputs[id := value];
    }

    /** `addTechnology`: a blank input changes nothing; otherwise the trimmed
        text is appended to the project's technologies and the input is cleared. */
    method AddTechnology(id: string)
      modifies this
      ensures PendingItem(old(inputs), id).None? ==>
                projects == old(projects) && inputs == old(inputs) && saved == old(saved)
      ensures PendingItem(old(inputs), id).Some? ==>
                projects == WithTechnology(old(projects), id, PendingItem(old(inputs), id).value) &&
                saved == old(saved) + [projects] && inputs == old(inputs)[id := ""]
    {
      var tech := PendingItem(inputs, id);
      if tech.None? {
        return;
      }
      var updated := WithTechnology(projects, id, tech.value);
      projects := updated;
      saved := saved + [updated];
      inputs := inputs[id := ""];
    }

    method RemoveTechnology(id: string, index: int)
      modifies this
      ensures projects == WithoutTechnology(old(projects), id, index) && saved == old(saved) + [projects]
      ensures inputs == old(inputs)
    {
      var updated := WithoutTechnology(projects, id, index);
      projects := updated;
      saved := saved + [updated];
    }
  }
}
