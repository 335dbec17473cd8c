/**
 * The shape of the building catalog. The catalog itself (js/templates.js) is
 * not part of this model: every operation takes it as an input.
 */
module Templates {
  /** One sub-element of a variation: [w, d, h, lx, ly, lz, color]. */
  datatype Element = Element(w: nat, d: nat, h: real, lx: real, ly: real, lz: real, color: int)

  /** A sized configuration of a template: basePlateSize.width/depth, dimensions.height, elements. */
  datatype Variation = Variation(baseWidth: nat, baseDepth: nat, height: nat, elements: seq<Element>)

  type TemplateId = string

  /** buildingTemplates: template id to its list of variations. */
  type Catalog = map<TemplateId, seq<Variation>>

  /** A (template id, variation index) pair, as stored in selectedTemplateInfo. */
  datatype TemplateRef = TemplateRef(id: TemplateId, index: nat)

  predicate WellFormedVariation(v: Variation) {
    v.baseWidth >= 1 && v.baseDepth >= 1 && v.height >= 1
  }

  /** buildingTemplates[templateId].variations[variationIndex] exists and has a positive size. */
  predicate ValidRef(c: Catalog, templateId: TemplateId, variationIndex: int) {
    templateId in c && 0 <= variationIndex < |c[templateId]| && WellFormedVariation(c[templateId][variationIndex])
  }

  function VariationOf(c: Catalog, templateId: TemplateId, variationIndex: int): Variation
    requires ValidRef(c, templateId, variationIndex)
  {
    c[templateId][variationIndex]
  }
}
