/**
 * The Canary custom resource (pkg/apis/example/v1beta1/canary.go): the object
 * metadata the controller reads and the spec it carries.
 */
module CanaryApi {

  /** Go's int32, the type of the replica count. */
  newtype Int32 = x: int | -0x8000_0000 <= x < 0x8000_0000

  /** The part of metav1.ObjectMeta the controller uses. */
  datatype ObjectMeta = ObjectMeta(name: string, namespace: string, resourceVersion: string)

  datatype CanarySpec = CanarySpec(image: string, cron: string, replicas: Int32)

  datatype Canary = Canary(meta: ObjectMeta, spec: CanarySpec)

  /** Go's zero value `Canary{}`. */
  const ZeroCanary: Canary := Canary(ObjectMeta("", "", ""), CanarySpec("", "", 0))
}
