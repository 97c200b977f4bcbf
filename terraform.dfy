/** What both generators share about the Terraform they render. */
module Terraform {
  import opened Yaml

  /** A rendered attribute value: a Terraform expression, or a setting written in quotes. */
  datatype OutputValue = Reference(expr: string) | Quoted(value: Value)

  // The S3 state keys: `<env>/services/<name>/terraform.tfstate` and `<env>/core/terraform.tfstate`.
  const ServicesStateDir := "/services/"
  const StateFile := "/terraform.tfstate"
  const CoreStateKey := "/core/terraform.tfstate"
}
