/**
 * The automatic association links of a scaffold's list columns
 * (`links_for_associations` and the pruning part of
 * `link_for_association`). Action names are the symbols' names.
 */
module AssociationLinks {
  import opened Wrappers
  import opened ControllerLookup

  /** The kind of link made: the nested `index` of a plural association, or the `:none` link of a singular one. */
  datatype ActionLink = IndexLink | NoneLink

  /** Where an association link points: a polymorphic association, or a scaffold controller with its enabled actions. */
  datatype Target = Polymorph | Scaffold(actions: set<string>)

  /** The actions a polymorphic target is taken to have. */
  const PolymorphActions: set<string> := {"create", "update", "show"}

  /**
   * A column of the scaffold's list. Only the link and the actions for
   * association links change here; the rest is fixed by the column's
   * association.
   */
  class Column {
    var link: Option<ActionLink>
    var actionsForAssociationLinks: set<string>
    const autolink: bool
    const polymorphic: bool
    const plural: bool
    const associationModel: string

    constructor (autolink: bool, polymorphic: bool, plural: bool, associationModel: string, actions: set<string>)
      ensures link == None && actionsForAssociationLinks == actions
      ensures this.autolink == autolink && this.polymorphic == polymorphic
      ensures this.plural == plural && this.associationModel == associationModel
    {
      link := None;
      actionsForAssociationLinks := actions;
      this.autolink := autolink;
      this.polymorphic := polymorphic;
      this.plural := plural;
      this.associationModel := associationModel;
    }
  }

  function TargetActions(t: Target): set<string>
  {
    match t
    case Polymorph => PolymorphActions
    case Scaffold(actions) => actions
  }

  /**
   * The target of a column's association: `:polymorph`, or the controller the
   * lookup finds; nil when the lookup raises `ControllerNotFound`.
   */
  function AssociationTarget(ctx: Context, c: Column): (t: Option<Target>)
    ensures c.polymorphic ==> t == Some(Polymorph)
    ensures !c.polymorphic ==> (t.Some? <==> ControllerSearch(ctx, c.associationModel).Found?)
    ensures !c.polymorphic && t.Some? ==>
              t.value == Scaffold(ControllerSearch(ctx, c.associationModel).controller.config.value.actions)
  {
    if c.polymorphic then Some(Polymorph)
    else
      var res := ControllerSearch(ctx, c.associationModel);
      if res.Found? then Some(Scaffold(res.controller.config.value.actions)) else None
  }

  /** The link `link_for_association` returns for a column: nil without a target. */
  function AssociationLink(ctx: Context, c: Column): (r: Option<ActionLink>)
    ensures r.Some? <==> AssociationTarget(ctx, c).Some?
    ensures r.Some? ==> (r.value == IndexLink <==> c.plural)
  {
    if AssociationTarget(ctx, c).None? then None
    else if c.plural then Some(IndexLink)
    else Some(NoneLink)
  }

  /**
   * The pruning of a singular association's link actions against its
   * target's actions: `new` goes unless the target can create, `edit` unless
   * it can update, `show` unless it can show; nothing else is touched.
   */
  function Pruned(links: set<string>, actions: set<string>): (r: set<string>)
    ensures r <= links
    ensures "new" in r <==> "new" in links && "create" in actions
    ensures "edit" in r <==> "edit" in links && "update" in actions
    ensures "show" in r <==> "show" in links && "show" in actions
    ensures forall a :: a in links && a != "new" && a != "edit" && a != "show" ==> a in r
  {
    var withNew := if "create" in actions then links else links - {"new"};
    var withEdit := if "update" in actions then withNew else withNew - {"edit"};
    if "show" in actions then withEdit else withEdit - {"show"}
  }

  /** The link actions of a column after `link_for_association`: pruned only for a singular association with a target. */
  function LinksAfter(ctx: Context, c: Column, links: set<string>): (r: set<string>)
    ensures r <= links
    ensures c.plural || AssociationTarget(ctx, c).None? ==> r == links
    ensures c.polymorphic ==> r == links
    ensures !c.polymorphic && !c.plural && ControllerSearch(ctx, c.associationModel).Found? ==>
              r == Pruned(links, ControllerSearch(ctx, c.associationModel).controller.config.value.actions)
  {
    PolymorphPrunesNothing(links);
    var t := AssociationTarget(ctx, c);
    if t.Some? && !c.plural then Pruned(links, TargetActions(t.value)) else links
  }

  /** A polymorphic association keeps all its link actions. */
  lemma PolymorphPrunesNothing(links: set<string>)
    ensures Pruned(links, PolymorphActions) == links
  {
  }

  /** A plural association, or one without a target, keeps all its link actions. */
  lemma OnlySingularWithTargetIsPruned(ctx: Context, c: Column, links: set<string>)
    requires c.plural || AssociationTarget(ctx, c).None?
    ensures LinksAfter(ctx, c, links) == links
  {
  }

  /**
   * `link_for_association`: find the target, and for a singular association
   * delete the link actions the target cannot serve, in place.
   */
  method LinkForAssociation(ctx: Context, column: Column) returns (l: Option<ActionLink>)
    modifies column`actionsForAssociationLinks
    ensures l == AssociationLink(ctx, column)
    ensures column.actionsForAssociationLinks == LinksAfter(ctx, column, old(column.actionsForAssociationLinks))
  {
    var target: Option<Target>;
    if column.polymorphic {
      target := Some(Polymorph);
    } else {
      var res := ActiveScaffoldControllerFor(ctx, column.associationModel);
      target := if res.Found? then Some(Scaffold(res.controller.config.value.actions)) else None;
    }
    if target.None? {
      return None;
    }
    if column.plural {
      return Some(IndexLink);
    }
    var actions := PolymorphActions;
    if target.value.Scaffold? {
      actions := target.value.actions;
    }
    if "create" !in actions {
      column.actionsForAssociationLinks := column.actionsForAssociationLinks - {"new"};
    }
    if "update" !in actions {
      column.actionsForAssociationLinks := column.actionsForAssociationLinks - {"edit"};
    }
    if "show" !in actions {
      column.actionsForAssociationLinks := column.actionsForAssociationLinks - {"show"};
    }
    l := Some(NoneLink);
  }

  /** Whether `links_for_associations` links a column: the list and nested actions are on, the column has no link and autolinks. */
  predicate Eligible(actions: set<string>, link: Option<ActionLink>, autolink: bool)
  {
    "list" in actions && "nested" in actions && link.None? && autolink
  }

  /**
   * `links_for_associations`: nothing unless the scaffold has both `list`
   * and `nested`; then every column without a link that autolinks gets the
   * link `link_for_association` makes (when it makes one), and its link
   * actions pruned. Every other column is left as it was.
   */
  method LinksForAssociations(ctx: Context, actions: set<string>, columns: seq<Column>)
    requires forall i, j :: 0 <= i < j < |columns| ==> columns[i] != columns[j]
    modifies set c | c in columns
    ensures forall i :: 0 <= i < |columns| ==>
              if Eligible(actions, old(columns[i].link), columns[i].autolink) then
                columns[i].link == AssociationLink(ctx, columns[i]) &&
                columns[i].actionsForAssociationLinks == LinksAfter(ctx, columns[i], old(columns[i].actionsForAssociationLinks))
              else
                columns[i].link == old(columns[i].link) &&
                columns[i].actionsForAssociationLinks == old(columns[i].actionsForAssociationLinks)
  {
    if !("list" in actions && "nested" in actions) {
      return;
    }
    for i := 0 to |columns|
      invariant forall j :: 0 <= j < i ==>
                  if Eligible(actions, old(columns[j].link), columns[j].autolink) then
                    columns[j].link == AssociationLink(ctx, columns[j]) &&
                    columns[j].actionsForAssociationLinks == LinksAfter(ctx, columns[j], old(columns[j].actionsForAssociationLinks))
                  else
                    columns[j].link == old(columns[j].link) &&
                    columns[j].actionsForAssociationLinks == old(columns[j].actionsForAssociationLinks)
      invariant forall j :: i <= j < |columns| ==>
                  columns[j].link == old(columns[j].link) &&
                  columns[j].actionsForAssociationLinks == old(columns[j].actionsForAssociationLinks)
    {
      var column := columns[i];
      if column.link.None? && column.autolink {
        var actionLink := LinkForAssociation(ctx, column);
        if actionLink.Some? {
          column.link := actionLink;
        }
      }
    }
  }
}
