/** The operator's configured nodes, and the default among them. */
module Config {
  import opened Common

  datatype NodeClass = Daemon | Leaf

  datatype NodeEntry = NodeEntry(addr: string, token: Option<string>, class_: NodeClass)

  type Nodes = map<string, NodeEntry>

  datatype ConfigError = NoSuchNode(name: string) | NoDefault | LeafNode(name: string)

  /** A default names a configured node. */
  predicate Consistent(default_: Option<string>, nodes: Nodes) {
    default_.Some? ==> default_.value in nodes
  }

  class Config {
    var default_: Option<string>
    var nodes: Nodes

    constructor ()
      ensures default_ == None && nodes == map[]
    {
      default_, nodes := None, map[];
    }

    method Add(name: string, entry: NodeEntry)
      modifies this`nodes
      ensures nodes == old(nodes)[name := entry]
    {
      nodes := nodes[name := entry];
    }

    method Remove(name: string) returns (result: Result<(), ConfigError>)
      modifies this
      ensures result.Ok? <==> name in old(nodes)
      ensures result.Err? ==> result == Err(NoSuchNode(name)) && nodes == old(nodes) && default_ == old(default_)
      ensures result.Ok? ==> nodes == old(nodes) - {name} && default_ == if old(default_) == Some(name) then None else old(default_)
      ensures old(Consistent(default_, nodes)) ==> Consistent(default_, nodes)
    {
      if name !in nodes {
        return Err(NoSuchNode(name));
      }
      nodes := nodes - {name};
      if default_ == Some(name) {
        default_ := None;
      }
      result := Ok(());
    }

    method SetDefault(name: string) returns (result: Result<(), ConfigError>)
      modifies this`default_
      ensures result.Ok? <==> name in nodes
      ensures result.Err? ==> result == Err(NoSuchNode(name)) && default_ == old(default_)
      ensures result.Ok? ==> default_ == Some(name)
    {
      if name !in nodes {
        return Err(NoSuchNode(name));
      }
      default_ := Some(name);
      result := Ok(());
    }

    /** The node a command is about to dial: the one asked for, or the default, and never a leaf. */
    method Resolve(requested: Option<string>) returns (result: Result<(string, NodeEntry), ConfigError>)
      ensures match result
        case Ok((name, entry)) =>
          && name in nodes && entry == nodes[name] && entry.class_ == Daemon
          && (requested == Some(name) || (requested.None? && default_ == Some(name)))
        case Err(NoDefault) => requested.None? && default_.None?
        case Err(NoSuchNode(name)) => name !in nodes && (requested == Some(name) || (requested.None? && default_ == Some(name)))
        case Err(LeafNode(name)) => name in nodes && nodes[name].class_ == Leaf && (requested == Some(name) || (requested.None? && default_ == Some(name)))
      ensures Consistent(default_, nodes) && requested.None? ==> !(result.Err? && result.error.NoSuchNode?)
    {
      var chosen := if requested.Some? then requested else default_;
      if chosen.None? {
        return Err(NoDefault);
      }
      var name := chosen.value;
      if name !in nodes {
        return Err(NoSuchNode(name));
      }
      if nodes[name].class_ == Leaf {
        return Err(LeafNode(name));
      }
      result := Ok((name, nodes[name]));
    }
  }
}
