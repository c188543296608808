/** The node-name filter a visitor consults before recording a name. Its
    concrete rules (Filter\NodeName) are not part of this model: a filter
    object carries them as a rule that maps its options and a name to the
    name to record, or to None when the name is to be dropped. */
module NameFilter {
  import opened Common
  import opened Names

  type Rule = (seq<Scalar>, Name) -> Option<Name>

  class NodeNameFilter {
    const rule: Rule
    var options: seq<Scalar>

    constructor (rule: Rule)
      ensures this.rule == rule && options == []
    {
      this.rule := rule;
      options := [];
    }

    /** ConfigurableInterface::setOptions: the options are stored as given. */
    method SetOptions(options: seq<Scalar>)
      modifies this
      ensures this.options == options
    {
      this.options := options;
    }

    /** NodeNameInterface::filter under the current options. */
    function Filter(name: Name): Option<Name>
      reads this
    {
      rule(options, name)
    }
  }
}
