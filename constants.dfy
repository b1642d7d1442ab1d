/**
 * The well-known names, ports and paths shared by the synthesized objects. The
 * proofs rely only on these values being pairwise distinct where it matters.
 */
module Constants {

  // Label keys
  const ChopGeneratedLabel := "clickhouse.altinity.com/chop"
  const ChiGeneratedLabel := "clickhouse.altinity.com/chi"
  const ClusterGeneratedLabel := "clickhouse.altinity.com/cluster"
  const ClusterIndexGeneratedLabel := "clickhouse.altinity.com/clusterIndex"
  const ReplicaIndexGeneratedLabel := "clickhouse.altinity.com/replicaIndex"
  const ZkVersionLabel := "clickhouse.altinity.com/zkv"
  const AppLabel := "clickhouse.altinity.com/app"

  // The three canonical ClickHouse ports
  const HttpPortName := "http"
  const HttpPortNumber := 8123
  const ClientPortName := "client"
  const ClientPortNumber := 9000
  const InterServerPortName := "interserver"
  const InterServerPortNumber := 9009

  /** The cluster IP of a headless service. */
  const HeadlessClusterIP := "None"

  // Mount paths of the three config bundles and of the data directory
  const DirPathConfigd := "/etc/clickhouse-server/config.d/"
  const DirPathUsersd := "/etc/clickhouse-server/users.d/"
  const DirPathConfd := "/etc/clickhouse-server/conf.d/"
  const DirPathClickHouseData := "/var/lib/clickhouse"

  // Files of the generated config sections
  const FilenameRemoteServersXML := "remote_servers.xml"
  const FilenameZookeeperXML := "zookeeper.xml"
  const FilenameSettingsXML := "settings.xml"
  const FilenameListenXML := "listen.xml"
  const FilenameUsersXML := "users.xml"
  const FilenameQuotasXML := "quotas.xml"
  const FilenameProfilesXML := "profiles.xml"
  const FilenameMacrosXML := "macros.xml"

  const DefaultClickHouseDockerImage := "yandex/clickhouse-server:latest"

  /** Position of the ClickHouse container among a pod's containers. */
  const ClickHouseContainerIndex := 0
}
