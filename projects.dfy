/** The project records the views read, the catalog tabs, and the project list per tab. */
module Projects {
  import opened Wrappers
  import opened Gallery

  /** One entry of a scene project's `coolFeatures` list. */
  datatype Feature = Feature(title: string, image: Option<Url>)

  /** One entry of `mechanicsData[id]` (its `label` field is `labelText`: `label` is a Dafny keyword). */
  datatype Mechanic = Mechanic(icon: string, labelText: string, desc: string)

  /** A project record. Absent fields are `None`; `kind` is the record's `type` field. */
  datatype Project = Project(
    id: string,
    kind: Option<string>,
    team: Option<string>,
    images: Option<seq<Url>>,
    renders: Option<seq<Url>>,
    paintwork: Option<seq<Url>>,
    progression: Option<seq<Url>>,
    references: Option<seq<Url>>,
    coolFeatures: Option<seq<Feature>>)

  /** The three catalog tabs ("games", "modeling", "scenes"). */
  datatype Tab = Games | Modeling | Scenes

  /** The three exported project lists. */
  datatype Catalog = Catalog(games: seq<Project>, modeling: seq<Project>, scenes: seq<Project>)

  /** The list the catalog grid shows: games for the games tab, modeling for the modeling tab,
      the scene list for anything else. It reads nothing but the tab. */
  function Visible(c: Catalog, tab: Tab): (r: seq<Project>)
    ensures tab == Games ==> r == c.games
    ensures tab == Modeling ==> r == c.modeling
    ensures tab != Games && tab != Modeling ==> r == c.scenes
  {
    if tab == Games then c.games
    else if tab == Modeling then c.modeling
    else c.scenes
  }
}
