/**
 * The relation-type codes NocoDB stores and switches on: the values of its
 * `RelationTypes` enumeration, which the legacy meta's disabled-relation rows
 * use as well.
 */
module RelationTypes {

  const HasManyType: string := "hm"
  const BelongsToType: string := "bt"
  const OneToOneType: string := "oo"
  const ManyToManyType: string := "mm"
}
